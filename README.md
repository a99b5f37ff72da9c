# AR board sizer: verified model of the session and hit-test core

This project is a Dafny model of the three small stateful parts of the AR
"try before you buy" viewer. The viewer places a skateboard-and-shoe model on
a real surface through WebXR hit-testing. The three parts are:

- **The hit-test / reticle frame loop** of `main.js` (`render`, the session
  `end` listener it registers, and `placeAR`). This is the class
  `HitTestLoop.Scene`. Its fields are the module-level variables of
  `main.js`: the request flag, the hit-test source, the reticle's visibility
  and matrix, the display of the place and slider-menu buttons, and the
  placed group. Counters record the reference-space requests issued, the end
  listeners registered on the current session, and the requests still
  pending. Each promise settlement of the two-step source request
  (`requestReferenceSpace('viewer')`, then `requestHitTestSource`) is its own
  event method.
- **The slider range setup** of `setShoeSizes` / `setBoardSizes`. This is
  module `SliderSizes`: the `for`/`push` loop is the method `BuildRange`, and
  first, middle (`arr[Math.round((len-1)/2)]`) and last are taken from it.
  `Math.round(x)` is modelled as `floor(x + 1/2)`. Out-of-range indexing
  gives `undefined`, modelled as `None`.
- **The AR toggle button** of `ARButton.createButton`. Module `ARButton` holds
  the class `Controller`, which is the closure state: `currentSession`, the
  button text, whether `onclick` and the hover handlers are set, the display
  of the overlay root, the sessions `onSessionEnded` is registered on, and
  the `requestSession` / `end()` calls issued. Module `ARButton` also holds
  the pure functions `WithOverlay` (the default overlay), `SecureHref` (the
  `^http:` rewrite) and `CreateButton` (which chooses between the button and
  the fallback link).

The source relies on a few implicit exceptions. The model follows the code
in each of these cases:

- The end listener in `main.js` calls `Box3.setFromObject(current_object)`.
  While nothing has been placed, `current_object` is `undefined`, so that
  call throws and the two buttons are not hidden. `Scene.SessionEnd` hides
  them only after a placement (`currentObjectSet`).
- `getPose` may return `null`. Reading `.transform` from it throws after the
  buttons and the reticle have been shown, so the reticle keeps its old
  matrix.
- `onSessionEnded` removes its listener from the *current* session, not from
  the session that ended. With no current session it throws before changing
  anything.
- `currentSession.end()` on the overlay's close icon throws when there is no
  session.
- `addEventListener` with the same handler on the same session registers it
  only once. So the listeners of `onSessionEnded` are a set.

A hit-test source that resolves after its session ended is still stored:
the `.then` at main.js:173 assigns `hitTestSource` unconditionally, with no
per-session guard. `Scene.ResolveSource` does the same, and
`HitTestLoop.LateSourceAfterSessionEnd` shows a late source being stored
after the end handler has cleared everything; the next session's first frame
would then poll that stale source. This needs a platform that settles a
request after its session has ended. The WebXR Device API's session shutdown
rejects outstanding promises before `end` fires, so a conforming browser
would not deliver it, but the event methods here do not rule it out.

The page's HTML and CSS decide the initial display of the place and
slider-menu buttons and of a caller-supplied overlay root. These displays
are parameters of the constructors.

## Model

| member | source | states |
|---|---|---|
| `HitTestLoop.Scene.constructor` | main.js:478-484 | the fresh reticle mesh is hidden at the identity matrix (main.js:478-484); with the module variables of main.js:8-12, no source is requested or stored, nothing is placed, and the group is at the origin |
| `HitTestLoop.Scene.Render` | main.js:161-231 | with no frame nothing changes. The first frame of a session issues one reference-space request and registers one end listener; later frames issue none. With no source, the reticle and the buttons are unchanged. With a source and at least one hit, the reticle is visible at the first hit's pose and both buttons show "block". With a source and no hit, only the visibility drops; the matrix and the buttons are unchanged |
| `HitTestLoop.Scene.ResolveReferenceSpace` | main.js:169-177 | the viewer space arriving turns one pending space request into one pending hit-test-source request; nothing else changes |
| `HitTestLoop.Scene.RejectReferenceSpace` | main.js:169-177 | a rejected space request has no handler: only the pending count drops |
| `HitTestLoop.Scene.ResolveSource` | main.js:171-175 | stores the resolved source unconditionally, with no session check; the reticle, buttons and request flag are unchanged |
| `HitTestLoop.Scene.RejectSource` | main.js:171-175 | a rejected source request leaves the stored source as it was |
| `HitTestLoop.Scene.SessionEnd` | main.js:180-196 | when a listener was registered, clears the request flag and the source and hides the reticle, keeping its matrix. Both buttons are hidden only once an object has been placed. Pending requests are not cancelled. The next session starts with no request and no listener |
| `HitTestLoop.Scene.PlaceAR` | main.js:128-141 | does nothing unless the reticle is visible. Otherwise it sets `current_object` to the group, adds it to the scene, makes it visible, takes its position from the reticle matrix's translation (elements 12-14) and sets rotation y to -160; the loop state is unchanged |
| `HitTestLoop.RequestsInOneSession` | main.js:167-198 | over any sequence of frames in one session, exactly one request and one end listener once a frame has come, and none before |
| `HitTestLoop.LateSourceAfterSessionEnd` | main.js:171-183 | a source request pending at session end still stores its source afterwards, while the request flag stays cleared |
| `HitTestLoop.TrackAndPlace` | main.js:128-231 | request on frame 1, none on frame 2 before the source, a hit on frame 3: the reticle is visible with that pose, placing puts the group at its translation, and only one request was issued |
| `SliderSizes.BuildRange` | main.js:252-255 | the loop yields exactly the integers min..max in order (empty when min > max) |
| `SliderSizes.SliceLastPop` | main.js:259 | `slice(-1).pop()` is the last element, and undefined exactly for an empty array |
| `SliderSizes.MiddleIndexIsHalfLength` | main.js:258 | `Math.round((len-1)/2)` equals `len / 2` rounded down, for every length including 0 |
| `SliderSizes.RangeEndpoints` | main.js:257-259 | for a range min..max: first is min, last is max, and middle is `min + (max-min+1)/2`, lying between them. For an empty range all three are undefined |
| `SliderSizes.SetSizes` | main.js:250-259 | the slider's min, value and max are the range's first, middle and last; the step is passed through and does not shape the range |
| `SliderSizes.SetShoeSizes` | main.js:250-273 | shoe slider 35 / 40 / 45 with step 0.5 |
| `SliderSizes.SetBoardSizes` | main.js:275-298 | board slider 7 / 8 / 9 with step 0.25 |
| `ARButton.WithOverlay` | jsm/webxr/ARButton.js:9-37 | without a caller overlay, the created root is used and `optionalFeatures` becomes exactly `['dom-overlay']`. A caller overlay leaves the whole init untouched. The required features are never changed |
| `ARButton.SecureHref` | jsm/webxr/ARButton.js:167 | a leading "http:" becomes "https:" and the rest is kept; any other string is unchanged |
| `ARButton.SecureHrefIdempotent` | jsm/webxr/ARButton.js:167 | rewriting twice equals rewriting once |
| `ARButton.SecureHrefScheme` | jsm/webxr/ARButton.js:165-168 | the rewritten link starts with "https:" exactly when the original started with "http:" or "https:" |
| `ARButton.CreateButton` | jsm/webxr/ARButton.js:146-185 | a button exactly when `navigator.xr` exists. Otherwise, only for `isSecureContext === false`, a "WebXR needs https" link to the rewritten location; in every other case a "WEBXR not available" link to https://immersiveweb.dev/. Which links are https is stated both ways |
| `ARButton.Controller.constructor` | jsm/webxr/ARButton.js:146-159 | the button starts hidden (`display = 'none'`), with no text, no handlers, no session and no requests; the caller's init cannot name the overlay `showStartAR` creates |
| `ARButton.Controller.SupportResolved` | jsm/webxr/ARButton.js:153-157 | the support promise resolving true shows the enabled "Explore Sizes" button with the overlay ensured. Resolving false shows "No AR support" with no handlers. Either way the button is displayed. A created overlay starts hidden with its close icon; a caller overlay keeps its display; after false the overlay is untouched |
| `ARButton.Controller.SupportRejected` | jsm/webxr/ARButton.js:153-157 | a rejected support check shows "No AR support" with no handlers, and the button is displayed; the overlay, its display and close icon are untouched |
| `ARButton.Controller.ShowStartAR` | jsm/webxr/ARButton.js:7-106 | ensures the overlay (a created one starts hidden, with its close icon), shows the button with text "Explore Sizes", sets the click and hover handlers, and has no session |
| `ARButton.Controller.ShowARNotSupported` | jsm/webxr/ARButton.js:108-129 | the button is displayed with text "No AR support", `onclick` and both hover handlers are null, and no request exists |
| `ARButton.Controller.Click` | jsm/webxr/ARButton.js:92-104 | without a handler nothing changes. With no session it appends `requestSession('immersive-ar', sessionInit)`, even while another is pending. With a session it issues `end()` on that session. Text, session, overlay root, overlay display and close icon are unchanged |
| `ARButton.Controller.CloseIconClick` | jsm/webxr/ARButton.js:21-25 | the close icon ends the current session, and does nothing (it throws) without one; text, session and overlay are untouched |
| `ARButton.Controller.SessionStarted` | jsm/webxr/ARButton.js:43-55 | registers `onSessionEnded` on the session, sets the text to "Stop", shows the overlay and stores the session; the overlay root and close icon are unchanged |
| `ARButton.Controller.SessionRejected` | jsm/webxr/ARButton.js:96 | a rejected request has no handler: session, text, overlay and close icon are untouched; only the pending count drops |
| `ARButton.Controller.SessionEnded` | jsm/webxr/ARButton.js:57-66 | if the ended session carries the listener and there is a current session: unregisters it from the current session, restores "Explore Sizes", hides the overlay and clears the session, keeping the overlay root and close icon. In every other case nothing changes |
| `ARButton.StartThenEnd` | jsm/webxr/ARButton.js:43-78 | click, start, click, end: back to "Explore Sizes" with the overlay hidden, no session and no listener, after exactly one `end()` call |
| `ARButton.UnsupportedNeverRequests` | jsm/webxr/ARButton.js:108-129 | after a false or rejected support check, no number of clicks issues a session request |
| `ARButton.RepeatedClicks` | jsm/webxr/ARButton.js:92-104 | n clicks with no session issue n identical `immersive-ar` requests: pending requests are not guarded |

## Left out

- three.js scene setup, drawing (`renderer.render`), OrbitControls and glTF loading (`setScene`, `loadModels`, `animate`, `onWindowResize`): these are engine calls outside the core. So are the "Loading" / "Place Board" texts of the place button.
- The Box3 centring of `controls.target` in the end listener is geometry from the engine. Only its throwing while `current_object` is undefined is modelled.
- `convertToMeter`, `convertToBoardSize`, the size and position slider handlers and `adjustPosition` are left out: they are floating-point arithmetic on `toFixed` strings and engine bounding boxes.
- `rotateObject` and the touch handlers are left out: they are float rotation driven by gesture events. The group's rotation is only what `placeAR` sets.
- DOM and jQuery styling and wiring are left out: `stylizeElement`, cursor and position styles, hover opacity, the SVG path, the rangeslider plug-in, the `sliderMenuBtn` toggle, eruda, the slider input elements and the size indicator text.
- `renderer.xr.setReferenceSpaceType` / `setSession` in `onSessionStarted` are renderer calls and are not modelled. The reference space a result's pose is expressed in is abstracted away: a frame carries each result's pose directly.
- Real promise and WebXR semantics (the event loop, which sessions and sources a browser grants) are left out. Each settlement is an event method, with the requirement that a matching request is pending.
- The hit-test loop and the toggle button are separate classes. The link between the button's session and `renderer.xr.getSession()` is not modelled.
