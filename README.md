# Chat room themes, background animations and conversation store

This project models the stateful core of a small AI chat application:

- **The conversation store** (`backend/conversation_manager.py`). It maps
  each user id to that user's messages, in the order they were added. It
  writes the table back to a JSON file after every change.
- **The two background animations** (`frontend/chatroom/backgroundAnimationA.js`
  and `frontend/chatroom/backgroundAnimationC.js`):
  - the white theme's ambient particle cloud, which turns slowly and cycles
    its colour while the assistant is typing;
  - the dark theme's starfield, with twinkling stars and a drifting
    deep-blue nebula.

  Each instance is a small state machine. Its state is the destroyed flag, a
  pending animation frame, a registered resize listener, an attached canvas,
  the fallback background, the camera and the renderer, plus the per-frame
  update rules on its particle buffers.
- **The theme orchestrator** (`switchTheme` in `frontend/main.js` and in
  `ChatRoom` of `frontend/chatRoom.js`). A fixed two-entry registry (`white`,
  `dark`) picks the animation class and the chat-box styling. A valid switch
  cleans up the old animation before it constructs the new one.

Modules:

- `Host` (host.dfy): what the browser, `Math` and Three.js hand to the
  animations, as input values.
  - Container and window sizes.
  - `sin`/`cos` as any function into [-1, 1].
  - `Math.random()` as a stream of draws in [0, 1).
  - Where scene construction throws, if anywhere.
  - Whether a frame step throws.
  - The camera, renderer and point-object states.
- `Text` (text.dfy): `String.prototype.trim` and the substring test behind
  the selector `link[href*="chatBox"]`.
- `Conversations` (conversations.dfy):
  - `ConversationManager`, a class over `map<string, seq<Message>>`;
  - the functions `Added`, `Cleared` and `Loaded` that specify its
    operations;
  - `Replay`/`Expected`, which state what any sequence of calls leaves in a
    user's history.
- `AmbientAnimation` (ambient.dfy) and `StarfieldAnimation` (starfield.dfy):
  - One instance's state is a value (`Ambient`, `Starfield`).
  - A function gives what each method does to that value (`Animated`,
    `Resized`, `CleanedUp`, `Recovered`, ...).
  - The class `BackgroundAnimation` holds the fields and is proved to
    implement exactly those functions, loops included.
  - Lemmas over the functions state the per-frame rules and the lifecycle
    facts.
- `Themes` (themes.dfy):
  - the registry lookup;
  - the theme-button toggle;
  - the page's reference to its current animation;
  - the handoff of a valid switch: `cleanup()` on the old instance, then
    `new` for the next one;
  - `StateOf`, the state of whichever instance the reference names, and
    `CleanedUpState`, what that instance's `cleanup()` leaves it in.
- `MainPage` (main_page.dfy): the module-level state of `main.js` as one
  `Page` object, with its `switchTheme`, theme button, `beforeunload`
  handler, and the two halves of `sendMessage` around its request: the
  `setTyping(true)` before it and the `setTyping(false)` after it.
- `ChatRoomPage` (chat_room.dfy): the `ChatRoom` class. It keeps the
  document's `<link>` hrefs as a sequence, so the model can state which
  theme stylesheets are linked.

Each page keeps a ghost log, `trace`, of the calls it made on its animations.
`CleanUp`, `Construct` and `SetTyping` in `Themes` each append their own call,
so the log follows the order in which the calls ran. The store keeps a log of
the tables it wrote (`saves`). These logs exist only to state ordering and
persistence. The program has no such variables.

### What the code does in two edge cases

- **Recovery.** A frame that throws calls `recoverFromError`. That calls
  `cleanup()`, which sets `isDestroyed`, and nothing clears the flag again.
  The `animate()` call that follows returns at once, so no frame is
  requested again: the instance stays destroyed. When the rebuild succeeds,
  it leaves a resize listener registered and a canvas attached to the
  destroyed instance, until the next `cleanup()`. In the model:
  - `Recovered` ends destroyed;
  - `FaultEndsTheLoop` proves that no later frame changes anything;
  - it also proves that the listener is registered exactly when the
    rebuild's renderer was created.
- **Unknown theme ids.** `switchTheme` returns nothing and silently ignores
  an id its guard rejects, and the model does the same.
- **Inherited names.** The guard `if (!themes[id]) return;` rejects only
  ids that read as falsy from the registry object. Names inherited from
  `Object.prototype`, such as `toString`, read as functions, so they pass
  it. The page classes use the corrected guard, which admits only the
  registry's own keys; `Themes.GuardAdmitsInheritedNames` models the guard
  as written. See Findings and the two `SwitchTheme` lines under Left out.

## Model

| member | source | states |
|---|---|---|
| Host.AspectOf | frontend/chatroom/backgroundAnimationA.js:81 | the camera aspect ratio times the height is the width |
| Host.PixelRatioCap | frontend/chatroom/backgroundAnimationC.js:72 | the renderer's pixel ratio is the smaller of the device pixel ratio and 2 |
| Text.TrimStart | frontend/main.js:136 | the result is a suffix of the input, what was removed is all white space, and it does not start with white space |
| Text.TrimEnd | frontend/main.js:136 | the result is a prefix of the input, what was removed is all white space, and it does not end with white space |
| Text.Trim | frontend/main.js:136-137 | the trimmed message occurs inside the input with only white space before and after it, has no white space at either end, and is empty exactly when the input is all white space |
| Text.ContainsIffOccurs | frontend/chatRoom.js:64 | the substring test used by `[href*="chatBox"]` holds exactly when some position of the href starts a copy of the text |
| Conversations.Added | backend/conversation_manager.py:30-42 | adding creates the user's entry if needed; that history grows by exactly one; the new last element is the message and earlier ones are unchanged; every other user's history is unchanged |
| Conversations.Cleared | backend/conversation_manager.py:48-52 | after clearing, the user has no entry and an empty history; other users are unchanged; clearing a user without an entry changes nothing |
| Conversations.Loaded | backend/conversation_manager.py:12-20 | a missing file leaves the table as it was; an unreadable file empties it; a parsed file replaces it |
| Conversations.HistoryFollowsCalls | backend/conversation_manager.py:30-52 | after any sequence of add and clear calls, a user's history is the messages added for that user since their last clear, in call order; other users' calls never touch it |
| Conversations.AddsOnlyFromEmpty | backend/conversation_manager.py:41 | from an empty store and only adding, a user's history is exactly the added messages addressed to that user, in order |
| Conversations.ConversationManager.constructor | backend/conversation_manager.py:7-10 | a new manager holds the table loading gives from an empty one, and has written nothing |
| Conversations.ConversationManager.LoadHistory | backend/conversation_manager.py:12-20 | the table becomes what `Loaded` gives for the file's state |
| Conversations.ConversationManager.SaveHistory | backend/conversation_manager.py:22-28 | the current table is written, and nothing else changes |
| Conversations.ConversationManager.AddMessage | backend/conversation_manager.py:30-42 | the table becomes `Added` of the old table with the message built from role, content and timestamp, and the new table is saved |
| Conversations.ConversationManager.GetConversationHistory | backend/conversation_manager.py:44-46 | a user without an entry gets the empty list; otherwise their stored list; nothing changes |
| Conversations.ConversationManager.ClearConversation | backend/conversation_manager.py:48-52 | the table becomes `Cleared` of the old one, and it is saved only when the user had an entry |
| AmbientAnimation.Coordinate | frontend/chatroom/backgroundAnimationA.js:96 | a draw in [0, 1) gives a coordinate in [-spread/2, spread/2) |
| AmbientAnimation.InitialPositions | frontend/chatroom/backgroundAnimationA.js:93-97 | the position buffer holds 3000 coordinates, coordinate i from draw i, each in [-2.5, 2.5) |
| AmbientAnimation.NewPositions | frontend/chatroom/backgroundAnimationA.js:93-97 | the loop fills a new array with exactly `InitialPositions` |
| AmbientAnimation.Hue | frontend/chatroom/backgroundAnimationA.js:125 | the typing hue lies in [0, 360] |
| AmbientAnimation.ConstructedShaped | frontend/chatroom/backgroundAnimationA.js:16-44 | a new instance's buffer is empty or holds 3000 coordinates; when a build step throws, the fallback is shown and no frame is pending |
| AmbientAnimation.FrameShaped | frontend/chatroom/backgroundAnimationA.js:113-142 | no frame, faulty or not, changes the buffer's length or leaves a destroyed instance with a frame pending |
| AmbientAnimation.RecoveryShaped | frontend/chatroom/backgroundAnimationA.js:144-154 | recovery leaves the instance destroyed, with the buffer's shape kept |
| AmbientAnimation.ShapePreserved | frontend/chatroom/backgroundAnimationA.js:77-87 | resizing, setting the typing flag and cleaning up keep the buffer's shape |
| AmbientAnimation.RotationAfter | frontend/chatroom/backgroundAnimationA.js:119-121 | after n live frames the mesh has turned by exactly 0.0005·n about x and y |
| AmbientAnimation.PhaseWhileTyping | frontend/chatroom/backgroundAnimationA.js:123-127 | while typing, the colour phase grows by exactly 0.03 per frame and the colour is an hsl hue in [0, 360] |
| AmbientAnimation.PhaseStrictlyIncreases | frontend/chatroom/backgroundAnimationA.js:124 | under constant typing the phase strictly increases from frame to frame |
| AmbientAnimation.PhaseWhileIdle | frontend/chatroom/backgroundAnimationA.js:128-131 | while not typing, every frame leaves the phase at 0 and the colour at `PARTICLE_COLOR` |
| AmbientAnimation.TypingTakesEffectNextFrame | frontend/chatroom/backgroundAnimationA.js:156-158 | after `setTyping(true)` on an idle instance, the next frame advances the colour phase by one step and replaces the idle hex colour by the hue the phase gives |
| AmbientAnimation.DestroyedIsQuiet | frontend/chatroom/backgroundAnimationA.js:114 | once destroyed, any sequence of frames changes nothing |
| AmbientAnimation.FaultEndsTheLoop | frontend/chatroom/backgroundAnimationA.js:137-154 | a throwing frame leaves the instance destroyed with no frame pending, and no later frame changes it; the listener stays registered exactly when the rebuild created a renderer; a rebuild that does not complete leaves the fallback background set |
| AmbientAnimation.ConstructedLive | frontend/chatroom/backgroundAnimationA.js:16-44 | a complete build whose first frame does not throw is live (frame pending, listener registered, canvas attached, mesh turned once, not typing, base colour at phase 0); one whose first frame throws ends destroyed with no frame pending |
| AmbientAnimation.DestroyedIgnoresResize | frontend/chatroom/backgroundAnimationA.js:77-78 | `handleResize` changes nothing once the instance is destroyed |
| AmbientAnimation.CleanupIdempotent | frontend/chatroom/backgroundAnimationA.js:160-184 | cleanup cancels the frame, detaches the canvas and removes the listener, and cleaning up twice equals cleaning up once |
| AmbientAnimation.ResizeSetsAspect | frontend/chatroom/backgroundAnimationA.js:77-87 | resizing a live instance with a camera sets its aspect to the window's width over height |
| AmbientAnimation.BackgroundAnimation.constructor | frontend/chatroom/backgroundAnimationA.js:16-44 | the new state is `Constructed`: build, then a first frame, or the fallback when a build step throws |
| AmbientAnimation.BackgroundAnimation.HandleInitializationError | frontend/chatroom/backgroundAnimationA.js:46-49 | only the fallback flag changes, to shown |
| AmbientAnimation.BackgroundAnimation.InitializeScene | frontend/chatroom/backgroundAnimationA.js:51-75 | the camera takes the container's aspect; unless the renderer throws, a renderer is attached and the listener registered; the result says whether it threw |
| AmbientAnimation.BackgroundAnimation.HandleResize | frontend/chatroom/backgroundAnimationA.js:77-87 | the new state is `Resized`: nothing when destroyed or without a camera |
| AmbientAnimation.BackgroundAnimation.CreateParticles | frontend/chatroom/backgroundAnimationA.js:89-111 | a live mesh at rest in the base colour, with `InitialPositions` |
| AmbientAnimation.BackgroundAnimation.Animate | frontend/chatroom/backgroundAnimationA.js:113-142 | the new state is `Animated`: nothing when destroyed; otherwise a frame is requested, the mesh turns, the colour rule applies, and recovery follows a throw |
| AmbientAnimation.BackgroundAnimation.RecoverFromError | frontend/chatroom/backgroundAnimationA.js:144-154 | the new state is `Recovered`: cleaned up, rebuilt or fallen back, and still destroyed |
| AmbientAnimation.BackgroundAnimation.SetTyping | frontend/chatroom/backgroundAnimationA.js:156-158 | only the typing flag changes |
| AmbientAnimation.BackgroundAnimation.Cleanup | frontend/chatroom/backgroundAnimationA.js:160-184 | the new state is `CleanedUp`: destroyed, frame cancelled, renderer and mesh disposed, canvas detached, listener removed |
| StarfieldAnimation.Coordinate | frontend/chatroom/backgroundAnimationC.js:113-115 | a draw in [0, 1) gives a coordinate in [-spread/2, spread/2) |
| StarfieldAnimation.StarSize | frontend/chatroom/backgroundAnimationC.js:116 | an initial star size lies in [0, 1.5) |
| StarfieldAnimation.InitialStarPositions | frontend/chatroom/backgroundAnimationC.js:108-117 | 9000 star coordinates, each from its own draw, in [-7.5, 7.5) |
| StarfieldAnimation.InitialStarSizes | frontend/chatroom/backgroundAnimationC.js:109-116 | 3000 star sizes, star i's from its fourth draw |
| StarfieldAnimation.InitialNebulaPositions | frontend/chatroom/backgroundAnimationC.js:142-150 | 3000 nebula coordinates, each from its own draw after the stars' draws, in [-6, 6) |
| StarfieldAnimation.PaletteIndex | frontend/chatroom/backgroundAnimationC.js:152 | the floor of draw × 3 is a valid palette index, the third of [0, 1) the draw falls in |
| StarfieldAnimation.Channel | frontend/chatroom/backgroundAnimationC.js:152 | a colour channel is a fraction in [0, 1] |
| StarfieldAnimation.Tint | frontend/chatroom/backgroundAnimationC.js:153-155 | a stored nebula colour component is 0.7 times a channel, so it lies in [0, 0.7] |
| StarfieldAnimation.InitialNebulaColors | frontend/chatroom/backgroundAnimationC.js:144-155 | 3000 colour components; component j is channel j mod 3 of point j/3's palette entry, dimmed |
| StarfieldAnimation.PaletteIsBlue | frontend/chatroom/backgroundAnimationC.js:12 | every palette entry has more blue than red or green |
| StarfieldAnimation.NebulaIsDeepBlue | frontend/chatroom/backgroundAnimationC.js:152-155 | every nebula point's blue exceeds its red and green, and no component exceeds 0.7 |
| StarfieldAnimation.Twinkled | frontend/chatroom/backgroundAnimationC.js:183-185 | the twinkle gives one size per star, each in [0.9, 1.5] |
| StarfieldAnimation.Drifted | frontend/chatroom/backgroundAnimationC.js:195-198 | the drift keeps the buffer's length and never moves a z coordinate |
| StarfieldAnimation.DriftIsSmall | frontend/chatroom/backgroundAnimationC.js:196-197 | one drift moves each coordinate by at most 0.0005 |
| StarfieldAnimation.ConstructedShaped | frontend/chatroom/backgroundAnimationC.js:16-47 | a new instance's buffers are empty or full (9000/3000 stars, 3000/3000 nebula); when a build step throws, the fallback is shown and no frame is pending; stars built before a failing nebula stay live |
| StarfieldAnimation.FrameShaped | frontend/chatroom/backgroundAnimationC.js:169-209 | no frame, faulty or not, changes a buffer's length or leaves a destroyed instance with a frame pending |
| StarfieldAnimation.AdvanceShaped | frontend/chatroom/backgroundAnimationC.js:175-200 | a live frame's updates keep every buffer's length |
| StarfieldAnimation.RecoveryShaped | frontend/chatroom/backgroundAnimationC.js:211-222 | recovery leaves the instance destroyed, with the buffers' shapes kept |
| StarfieldAnimation.ShapePreserved | frontend/chatroom/backgroundAnimationC.js:83-94 | resizing, `setTyping` and cleanup keep the buffers' shapes |
| StarfieldAnimation.TimeAfter | frontend/chatroom/backgroundAnimationC.js:175 | after n live frames the clock has advanced by exactly 0.0005·n |
| StarfieldAnimation.TurnFollowsClock | frontend/chatroom/backgroundAnimationC.js:177-191 | after a live frame, the stars' y turn is time·0.05 and the nebula's time·0.02, and both x tilts lie within 0.05 |
| StarfieldAnimation.TwinkleOverwritesSizes | frontend/chatroom/backgroundAnimationC.js:182-185 | after a live frame the star sizes do not depend on the sizes before it, and every size lies in [0.9, 1.5] |
| StarfieldAnimation.NebulaDrift | frontend/chatroom/backgroundAnimationC.js:194-198 | over n live frames every nebula z coordinate is unchanged, and each x and y has moved by at most 0.0005·n |
| StarfieldAnimation.AnimateIgnoresTyping | frontend/chatroom/backgroundAnimationC.js:169-209 | a frame's result does not depend on the typing flag |
| StarfieldAnimation.TypingSetsOpacity | frontend/chatroom/backgroundAnimationC.js:224-229 | with a nebula, typing sets opacity 0.4 and stopping 0.3; of two calls only the last shows |
| StarfieldAnimation.DestroyedIsQuiet | frontend/chatroom/backgroundAnimationC.js:170 | once destroyed, any sequence of frames changes nothing |
| StarfieldAnimation.FaultEndsTheLoop | frontend/chatroom/backgroundAnimationC.js:205-222 | a throwing frame leaves the instance destroyed with no frame pending, and no later frame changes it; the clock keeps the value it reached; the listener stays registered exactly when the rebuild created a renderer |
| StarfieldAnimation.ConstructedLive | frontend/chatroom/backgroundAnimationC.js:16-47 | a complete build advances the clock by one step; if its first frame does not throw it is live (frame pending, listener registered, canvas attached, both meshes live, not typing, resting nebula opacity 0.3); if that frame throws it ends destroyed with no frame pending |
| StarfieldAnimation.DestroyedIgnoresResize | frontend/chatroom/backgroundAnimationC.js:83-84 | `handleResize` changes nothing once the instance is destroyed |
| StarfieldAnimation.CleanupIdempotent | frontend/chatroom/backgroundAnimationC.js:231-260 | cleanup cancels the frame, detaches the canvas and removes the listener, and cleaning up twice equals cleaning up once |
| StarfieldAnimation.ResizeSetsAspect | frontend/chatroom/backgroundAnimationC.js:83-94 | resizing a live instance sets the aspect to width over height and caps the pixel ratio at 2 |
| StarfieldAnimation.NewStars | frontend/chatroom/backgroundAnimationC.js:108-117 | the loop fills two new, distinct arrays with exactly `InitialStarPositions` and `InitialStarSizes` |
| StarfieldAnimation.NewNebula | frontend/chatroom/backgroundAnimationC.js:142-156 | the loop fills two new, distinct arrays with exactly `InitialNebulaPositions` and `InitialNebulaColors` |
| StarfieldAnimation.SetStarPosition | frontend/chatroom/backgroundAnimationC.js:112-115 | star i's three coordinates are written, and earlier entries are kept |
| StarfieldAnimation.SetNebulaPosition | frontend/chatroom/backgroundAnimationC.js:147-150 | nebula point i's three coordinates are written, and earlier entries are kept |
| StarfieldAnimation.SetNebulaColor | frontend/chatroom/backgroundAnimationC.js:152-155 | nebula point i's three dimmed colour components are written, and earlier entries are kept |
| StarfieldAnimation.Twinkle | frontend/chatroom/backgroundAnimationC.js:182-185 | the size buffer becomes exactly `Twinkled`, in place |
| StarfieldAnimation.Drift | frontend/chatroom/backgroundAnimationC.js:194-198 | the position buffer becomes exactly `Drifted` of its old contents, in place |
| StarfieldAnimation.BackgroundAnimation.constructor | frontend/chatroom/backgroundAnimationC.js:16-47 | the new state is `Constructed`, and the two buffers `animate` writes are distinct arrays |
| StarfieldAnimation.BackgroundAnimation.HandleInitializationError | frontend/chatroom/backgroundAnimationC.js:49-51 | only the fallback flag changes, to shown |
| StarfieldAnimation.BackgroundAnimation.InitializeScene | frontend/chatroom/backgroundAnimationC.js:53-81 | the camera takes the container's aspect; unless the renderer throws, a renderer with a capped pixel ratio is attached and the listener registered |
| StarfieldAnimation.BackgroundAnimation.HandleResize | frontend/chatroom/backgroundAnimationC.js:83-94 | the new state is `Resized`: nothing when destroyed |
| StarfieldAnimation.BackgroundAnimation.CreateStars | frontend/chatroom/backgroundAnimationC.js:96-128 | a live, unturned star field with the initial positions and sizes in a fresh size array |
| StarfieldAnimation.BackgroundAnimation.CreateNebula | frontend/chatroom/backgroundAnimationC.js:130-167 | a live, unturned nebula at opacity 0.3 with the initial positions and colours in a fresh position array |
| StarfieldAnimation.BackgroundAnimation.Animate | frontend/chatroom/backgroundAnimationC.js:169-209 | the new state is `Animated`: nothing when destroyed; otherwise the clock advances, the turns follow it, sizes twinkle, the nebula drifts, and recovery follows a throw |
| StarfieldAnimation.BackgroundAnimation.RecoverFromError | frontend/chatroom/backgroundAnimationC.js:211-222 | the new state is `Recovered`: cleaned up, rebuilt or fallen back, and still destroyed |
| StarfieldAnimation.BackgroundAnimation.SetTyping | frontend/chatroom/backgroundAnimationC.js:224-229 | the new state is `TypingSet`: the flag, and the nebula's opacity when there is a nebula |
| StarfieldAnimation.BackgroundAnimation.Cleanup | frontend/chatroom/backgroundAnimationC.js:231-260 | the new state is `CleanedUp`: destroyed, frame cancelled, renderer and both point sets disposed, canvas detached, listener removed |
| Themes.ThemeFor | frontend/main.js:7-18 | an id names a registry entry exactly when it is `white` or `dark`, and the entry's key is the id |
| Themes.KeyRoundTrip | frontend/main.js:7-18 | every entry is found under its own key |
| Themes.LookupAsWritten | frontend/main.js:24 | `themes[id]` gives an own entry exactly for the registry keys, and an inherited member exactly for the `Object.prototype` names |
| Themes.GuardAdmitsInheritedNames | frontend/chatRoom.js:81 | the guard as written passes exactly the registry keys and the inherited names; `toString` passes it but names no theme |
| Themes.Toggled | frontend/main.js:72 | the theme button's choice is always a registry key; it is `white` exactly when the current theme is `dark`, and it differs from the current theme whenever that is a registry key |
| Themes.ToggleTwice | frontend/chatRoom.js:43 | pressing the theme button twice returns to the starting theme |
| Themes.CleanedUpState | frontend/chatroom/backgroundAnimationA.js:160-184 | what each class's `cleanup()` leaves is stopped (destroyed, no frame pending, no listener, no canvas attached), a further cleanup changes nothing, and there is a state exactly when there is an instance |
| Themes.Construct | frontend/main.js:38 | `new` gives a fresh instance of the theme's class, in the state its constructor leaves, and appends its construction to the trace |
| Themes.CleanUp | frontend/main.js:33-35 | the instance, if any, is left in exactly its class's cleaned-up state, with nothing running, and its cleanup is appended to the trace |
| Themes.Replace | frontend/main.js:33-41 | the old instance is left in exactly its class's cleaned-up state: destroyed, with no frame pending, no listener and no canvas; if construction throws, the reference keeps it; otherwise the reference is a fresh instance in its class's constructed state; the trace gains the old instance's cleanup, when there is one, and only after it the new one's construction |
| Themes.SetTyping | frontend/main.js:150-152 | the instance, if any, gets exactly its class's `setTyping` effect, and the call is appended to the trace |
| MainPage.Page.constructor | frontend/main.js:20-84 | the page starts on theme `dark` with its styles, and with a `dark` animation in its constructed state unless construction throws |
| MainPage.Page.SwitchTheme | frontend/main.js:23-42 | an unknown id changes nothing; a known id sets the theme and styles, cleans up the old animation before the new one is built (leaving it in exactly its cleaned-up state, with no frame, listener or canvas left), leaves the new one in its constructed state, and keeps the old reference when construction throws |
| MainPage.Page.OnThemeButton | frontend/main.js:71-74 | the button always switches to the other theme |
| MainPage.Page.SendMessage | frontend/main.js:135-152 | a blank message does nothing; otherwise the trimmed message is sent, and the current animation, if any, gets `setTyping(true)` and nothing else |
| MainPage.Page.OnRequestEnd | frontend/main.js:166-179 | when the request ends, either way, the animation the page refers to at that moment, if any, gets `setTyping(false)` and nothing else |
| MainPage.Page.OnUnload | frontend/main.js:258-262 | the current animation, if any, is left in exactly its cleaned-up state: destroyed, with no frame pending, no listener and no canvas; that one cleanup is traced |
| ChatRoomPage.WithoutThemeLinks | frontend/chatRoom.js:64-65 | the remaining links are links of the page, none a theme stylesheet |
| ChatRoomPage.FiltersSplit | frontend/chatRoom.js:64-65 | removal keeps every non-theme link: kept and removed links together account for all of them |
| ChatRoomPage.StyleSheetIsThemeLink | frontend/chatRoom.js:10-15 | both theme stylesheets are picked by `link[href*="chatBox"]` |
| ChatRoomPage.OneThemeLink | frontend/chatRoom.js:87-94 | after removal and appending, exactly one theme stylesheet is linked: the new one |
| ChatRoomPage.ChatRoom.constructor | frontend/chatRoom.js:21-31 | the room starts on `dark` with no animation; `initializeTheme` then links exactly the `dark` stylesheet and builds a `dark` animation unless construction throws |
| ChatRoomPage.RemoveThemeLinks | frontend/chatRoom.js:64-65 | the loop leaves exactly the links without `chatBox` in their href, in order, and no theme link |
| ChatRoomPage.LinkStyleSheet | frontend/chatRoom.js:86-94 | the theme links are replaced by the theme's stylesheet, which is then the only theme link |
| ChatRoomPage.ChatRoom.InitializeTheme | frontend/chatRoom.js:62-78 | the current theme's stylesheet is the only theme link, and a new animation is built unless construction throws, overwriting the reference without cleanup |
| ChatRoomPage.ChatRoom.CreateAnimation | frontend/chatRoom.js:73-77 | unless construction throws, the reference becomes a fresh instance of the theme's class in its constructed state |
| ChatRoomPage.ChatRoom.SwitchTheme | frontend/chatRoom.js:80-105 | an unknown id changes nothing; a known id sets the theme, links exactly its stylesheet, cleans up the old animation before the new one is built (leaving it in exactly its cleaned-up state), and leaves the new one in its constructed state |
| ChatRoomPage.ChatRoom.ReplaceAnimation | frontend/chatRoom.js:96-104 | the old animation is left in exactly its cleaned-up state (destroyed, no frame pending, no listener, no canvas), and its cleanup is traced before the new one's construction; if construction throws, the old reference stays; otherwise the new one is in its constructed state |
| ChatRoomPage.ChatRoom.OnThemeButton | frontend/chatRoom.js:43 | the button always switches to the other theme, whose stylesheet is the only theme link |
| ChatRoomPage.ChatRoom.Cleanup | frontend/chatRoom.js:231-235 | the current animation, if any, is left in exactly its cleaned-up state: destroyed, with no frame pending, no listener and no canvas; that one cleanup is traced |

## Left out

- Three.js and WebGL are not modelled as code: the scene, camera, renderer,
  geometry, material, `render` and `dispose`. They appear as the `Stage`
  record (frame pending, listener, canvas attached, fallback, camera aspect,
  renderer size and pixel ratio) and as point-object states.
  - `scene.clear()`, `updateProjectionMatrix()` and the background colour
    are not modelled.
  - A frame throws only at `render`, after all of its updates are done
    (the `Tick.throws` input). A throw earlier in a frame, for instance in
    `new THREE.Color` or inside the twinkle loop, would leave a partly
    updated frame; that case is not modelled.
- `requestAnimationFrame` and `cancelAnimationFrame` are not modelled as
  scheduling. The model keeps a "frame pending" flag, and one `animate`
  call is one frame; `Run` and `Frames` give sequences of frames.
  Browser event dispatch is not modelled.
- The fallback container the animation constructors create when they are
  given none is left out. The container is always given. The container's
  height and the window's `innerHeight` are positive, so no aspect ratio
  divides by zero. The `Infinity` aspect that a zero height gives in
  JavaScript is not modelled.
- The `Float32Array` buffers hold reals: single-precision rounding is not
  modelled. `Math.sin`, `Math.cos` and `Math.random` are inputs with their
  ranges only.
- StarfieldAnimation.Channel: Three.js colour management, which converts
  the sRGB hex palette to linear components, is not followed. A channel is
  its byte over 255, and the bounds and the blue ordering are proved for
  these hex values only, not for the linear components Three.js would
  store.
- The ambient hsl colour is kept as the triple (hue, 100, 50), not parsed
  into RGB.
- A construction that throws outside the constructor's own `try` is the
  `throws` input of the page methods. `chatRoom.js` and `main.js` catch it
  and keep the previous reference.
- The buffers that are never written after they are built are held as
  sequences, not arrays: the ambient positions, the star positions and the
  nebula colours. Aliasing between these buffers and the Three.js buffer
  attributes is not modelled. The two buffers `animate` writes in place (star
  sizes, nebula positions) are arrays.
- `main.js`: left out as network I/O or UI with nothing to state:
  - `initializeChat` and its `fetch` calls;
  - the conversation-history loading;
  - the request of `sendMessage`;
  - disabling and re-enabling the input;
  - the typing indicator;
  - `addMessageToChat`;
  - the random `userId`.
- MainPage.Page.SendMessage: the request itself is not modelled.
  `sendMessage` is split at its `await` into `SendMessage` and
  `OnRequestEnd`, so any page call, such as a theme switch, may run between
  them, as it can in the browser (the theme button stays enabled during the
  request). `OnRequestEnd` merges the reply and thrown paths, which make the
  same call, and sends `setTyping(false)` to whatever animation the page
  refers to then: after a switch, the new one.
- MainPage.Page.SwitchTheme: the page uses the corrected guard (own registry
  keys only). As written, `main.js` lets an inherited name such as
  `toString` through: it sets `currentTheme` (frontend/main.js:26), then
  throws at frontend/main.js:30 because `theme.chatBoxStyles` is undefined.
  The old animation is not cleaned up and stays live. `main.js` only calls
  `switchTheme` from the theme button, with `white` or `dark`.
- ChatRoomPage.ChatRoom.SwitchTheme: the room uses the corrected guard. As
  written, `chatRoom.js` lets an inherited name through: it relinks the theme
  stylesheet to an undefined `href`, cleans up the old animation
  (frontend/chatRoom.js:96-98), and then `new` throws and is caught, leaving
  no live animation. This is reachable because `ChatRoom` is exported; see
  Findings.
- The double-precision accumulators are exact reals: the ambient rotations
  and `colorPhase` (frontend/chatroom/backgroundAnimationA.js:120-124) and
  the starfield `time` (frontend/chatroom/backgroundAnimationC.js:175).
  So `AmbientAnimation.RotationAfter`, `AmbientAnimation.PhaseWhileTyping`,
  `StarfieldAnimation.TimeAfter` and `StarfieldAnimation.TurnFollowsClock`
  hold exactly (for instance a phase of exactly 0.03·n after n frames) in
  the model, not for the rounded IEEE sums.
- The chat-box style text is an opaque value per theme (`Styles`). The CSS
  text and `chatBoxB.js` are not part of this model.
- `chatRoom.js`: `initializeElements`, `setupEventListeners`,
  `initializeChat`, `sendMessage`, `loadConversationHistory` and the message
  rendering are DOM and network code and are left out.
- Conversation store: file reads and writes are left out.
  - The history file's state is the `HistoryFile` input.
  - The JSON writes are the ghost `saves` log.
  - A JSON file whose top level is not an object is not modelled.
  - The timestamp (`datetime.now()`) is an input.
  - Logging with `print` is not modelled.
- `backend/app.py`, `backend/ai_agent.py`,
  `frontend/navigationBar/navigationBar.js` and `frontend/chatBoxA.js` are
  not part of this model. They are HTTP routing, an OpenAI client wrapper,
  and page markup and CSS.

## Findings

| source | as written | input that shows it | evidently intended | confidence | as-written member | corrected member |
|---|---|---|---|---|---|---|
| frontend/chatRoom.js:81 | `if (!themes[id]) return;` reads a plain object literal. The same guard is at frontend/main.js:24. Every name `Object.prototype` provides is truthy there, so it passes the guard. | `switchTheme("toString")`, reachable because `ChatRoom` is exported: the guard passes, `currentTheme` becomes `"toString"`, the theme links are replaced by one whose href is `undefined`, and the old animation is cleaned up before `new undefined(...)` throws, leaving no live animation | only the registry's own keys `white` and `dark` select a theme; any other id is a no-op | not executed | Themes.GuardAdmitsInheritedNames | Themes.ThemeFor |
