/**
 * `ARButton.createButton` of jsm/webxr/ARButton.js.  With WebXR present it
 * returns a toggle button whose state lives in the closure of `createButton`
 * (`currentSession`, the button text, the click and hover handlers, the overlay's
 * display); that closure is the class `Controller`, and each promise
 * settlement and DOM event is a method of its own.  Without WebXR it returns a
 * link, modelled by the function `CreateButton`.
 */
module ARButton {
  import opened Wrappers

  /** The element a session's DOM overlay is rooted at. */
  datatype OverlayRoot = CallerRoot(id: string) | CreatedRoot

  /** The `sessionInit` dictionary; a missing member is None. */
  datatype SessionInit = SessionInit(
    requiredFeatures: Option<seq<string>>,
    optionalFeatures: Option<seq<string>>,
    domOverlay: Option<OverlayRoot>)

  /** Opaque handle of an immersive session. */
  datatype Session = Session(id: nat)

  /** One `navigator.xr.requestSession(mode, init)` call. */
  datatype SessionRequest = SessionRequest(mode: string, init: SessionInit)

  const ExploreLabel: string := "Explore Sizes"
  const StopLabel: string := "Stop"
  const UnsupportedLabel: string := "No AR support"

  /**
   * The overlay part of `showStartAR`: without a caller-supplied `domOverlay`
   * a hidden overlay is created and becomes the root, and `optionalFeatures`
   * is overwritten with exactly `['dom-overlay']`.
   */
  function WithOverlay(init: SessionInit): (r: SessionInit)
    ensures r.domOverlay.Some?
    ensures r.requiredFeatures == init.requiredFeatures
    ensures init.domOverlay.None? ==> r.domOverlay == Some(CreatedRoot) && r.optionalFeatures == Some(["dom-overlay"])
    ensures init.domOverlay.Some? ==> r == init
  {
    if init.domOverlay.None? then
      init.(optionalFeatures := Some(["dom-overlay"]), domOverlay := Some(CreatedRoot))
    else
      init
  }

  predicate StartsWith(s: string, prefix: string)
  {
    |prefix| <= |s| && s[..|prefix|] == prefix
  }

  /** `href.replace(/^http:/, 'https:')`. */
  function SecureHref(href: string): (r: string)
    ensures StartsWith(href, "http:") ==> StartsWith(r, "https:") && r[6..] == href[5..] && |r| == |href| + 1
    ensures !StartsWith(href, "http:") ==> r == href
  {
    if StartsWith(href, "http:") then "https:" + href[5..] else href
  }

  /** Rewriting twice is rewriting once: a rewritten link no longer starts with "http:". */
  lemma {:induction false} SecureHrefIdempotent(href: string)
    ensures SecureHref(SecureHref(href)) == SecureHref(href)
  {
    var r := SecureHref(href);
    if StartsWith(href, "http:") {
      assert r[4] == 's';
      assert !StartsWith(r, "http:");
    }
  }

  /** After the rewrite the link starts with "https:" exactly when it started with "http:" or "https:". */
  lemma {:induction false} SecureHrefScheme(href: string)
    ensures StartsWith(SecureHref(href), "https:") <==> StartsWith(href, "http:") || StartsWith(href, "https:")
  {
    if StartsWith(href, "https:") {
      assert href[4] == 's';
      assert !StartsWith(href, "http:");
    }
  }

  datatype Link = Link(href: string, text: string)

  /** What `createButton` returns: the toggle button (see `Controller`) or a message link. */
  datatype Element = ToggleButton | MessageLink(link: Link)

  /**
   * The choice between button and link, and the link itself.  Only an
   * explicit `isSecureContext === false` (Some(false)) selects the https
   * rewrite of the page's own address; an absent value does not.
   */
  function CreateButton(xrInNavigator: bool, isSecureContext: Option<bool>, locationHref: string): (e: Element)
    ensures e.ToggleButton? <==> xrInNavigator
    ensures !xrInNavigator && isSecureContext == Some(false) ==>
      e == MessageLink(Link(SecureHref(locationHref), "WebXR needs https"))
    ensures !xrInNavigator && isSecureContext != Some(false) ==>
      e == MessageLink(Link("https://immersiveweb.dev/", "WEBXR not available"))
    ensures e.MessageLink? ==>
      (StartsWith(e.link.href, "https:") <==>
        isSecureContext != Some(false) || StartsWith(locationHref, "http:") || StartsWith(locationHref, "https:"))
  {
    if xrInNavigator then ToggleButton
    else if isSecureContext == Some(false) then
      SecureHrefScheme(locationHref);
      MessageLink(Link(SecureHref(locationHref), "WebXR needs https"))
    else
      MessageLink(Link("https://immersiveweb.dev/", "WEBXR not available"))
  }

  class Controller {
    var sessionInit: SessionInit
    var currentSession: Option<Session>
    var buttonDisplay: string
    var text: string
    var onclickSet: bool              // `button.onclick` is the toggle handler (not null)
    var hoverSet: bool                // `onmouseenter` / `onmouseleave` are set (not null)
    var overlayDisplay: string        // `sessionInit.domOverlay.root.style.display`
    var hasCloseIcon: bool            // the created overlay's close icon exists
    var listeners: set<Session>       // sessions `onSessionEnded` is registered on
    var requests: seq<SessionRequest> // `requestSession` calls issued
    var pendingRequests: nat          // of those, not yet settled
    var endCalls: seq<Session>        // `session.end()` calls issued
    ghost var settled: bool           // the `isSessionSupported` promise has settled

    ghost predicate Valid()
      reads this
    {
      && onclickSet == hoverSet
      && (!settled ==> buttonDisplay == "none" && text == "" && !onclickSet && !hasCloseIcon)
      && (settled ==> buttonDisplay == "")
      && (!onclickSet ==> requests == [] && pendingRequests == 0 && currentSession == None && listeners == {} && endCalls == [])
      && (settled && !onclickSet ==> text == UnsupportedLabel)
      && (onclickSet ==> settled && sessionInit.domOverlay.Some?)
      && (onclickSet ==> text == if currentSession.Some? then StopLabel else ExploreLabel)
      && (currentSession.Some? ==> currentSession.value in listeners && overlayDisplay == "")
      && (hasCloseIcon <==> sessionInit.domOverlay == Some(CreatedRoot))
      && pendingRequests <= |requests|
    }

    /** The overlay root, its display and its close icon are as they were. */
    twostate predicate OverlayUnchanged()
      reads this
    {
      sessionInit == old(sessionInit) && overlayDisplay == old(overlayDisplay) && hasCloseIcon == old(hasCloseIcon)
    }

    twostate predicate SessionsUnchanged()
      reads this
    {
      && currentSession == old(currentSession) && listeners == old(listeners)
      && requests == old(requests) && pendingRequests == old(pendingRequests)
      && endCalls == old(endCalls)
    }

    /** `createButton` with `navigator.xr` present: a hidden, unlabelled button while support is checked. */
    constructor (init: SessionInit, rootDisplay: string)
      requires init.domOverlay != Some(CreatedRoot)  // that root only exists once `showStartAR` made it
      ensures Valid() && !settled
      ensures sessionInit == init && overlayDisplay == rootDisplay
      ensures buttonDisplay == "none" && text == "" && !onclickSet && !hoverSet && !hasCloseIcon
      ensures currentSession == None && listeners == {} && requests == [] && pendingRequests == 0 && endCalls == []
    {
      sessionInit, overlayDisplay := init, rootDisplay;
      buttonDisplay, text := "none", "";
      onclickSet, hoverSet, hasCloseIcon := false, false, false;
      currentSession, listeners := None, {};
      requests, pendingRequests, endCalls := [], 0, [];
      settled := false;
    }

    /** The `isSessionSupported` promise resolves with `supported`. */
    method SupportResolved(supported: bool)
      requires Valid() && !settled
      modifies this
      ensures Valid() && settled
      ensures supported ==> onclickSet && text == ExploreLabel && sessionInit == WithOverlay(old(sessionInit))
      ensures supported && old(sessionInit).domOverlay.None? ==> hasCloseIcon && overlayDisplay == "none"
      ensures supported && old(sessionInit).domOverlay.Some? ==> !hasCloseIcon && overlayDisplay == old(overlayDisplay)
      ensures !supported ==> !onclickSet && text == UnsupportedLabel && OverlayUnchanged() && !hasCloseIcon
      ensures buttonDisplay == "" && SessionsUnchanged()
    {
      if supported {
        ShowStartAR();
      } else {
        ShowARNotSupported();
      }
    }

    /** The `isSessionSupported` promise rejects: the `.catch` shows the same as an unsupported result. */
    method SupportRejected()
      requires Valid() && !settled
      modifies this
      ensures Valid() && settled
      ensures !onclickSet && text == UnsupportedLabel && OverlayUnchanged() && !hasCloseIcon
      ensures buttonDisplay == "" && SessionsUnchanged()
    {
      ShowARNotSupported();
    }

    /** `showStartAR`: ensure an overlay, then show the enabled "Explore Sizes" button with no session. */
    method ShowStartAR()
      requires Valid() && !settled
      modifies this
      ensures Valid() && settled
      ensures sessionInit == WithOverlay(old(sessionInit))
      ensures old(sessionInit).domOverlay.None? ==> hasCloseIcon && overlayDisplay == "none"
      ensures old(sessionInit).domOverlay.Some? ==> !hasCloseIcon && overlayDisplay == old(overlayDisplay)
      ensures buttonDisplay == "" && text == ExploreLabel && onclickSet && hoverSet
      ensures SessionsUnchanged() && currentSession == None
    {
      if sessionInit.domOverlay.None? {
        overlayDisplay := "none";
        hasCloseIcon := true;
        sessionInit := WithOverlay(sessionInit);
      }
      currentSession := None;
      buttonDisplay := "";
      text := ExploreLabel;
      hoverSet, onclickSet := true, true;
      settled := true;
    }

    /** `showARNotSupported` / `disableButton`: shown, relabelled, and every handler removed. */
    method ShowARNotSupported()
      requires Valid() && !settled
      modifies this
      ensures Valid() && settled
      ensures buttonDisplay == "" && text == UnsupportedLabel && !onclickSet && !hoverSet
      ensures sessionInit == old(sessionInit) && overlayDisplay == old(overlayDisplay) && !hasCloseIcon
      ensures SessionsUnchanged()
    {
      buttonDisplay := "";
      hoverSet, onclickSet := false, false;
      text := UnsupportedLabel;
      settled := true;
    }

    /**
     * A click on the button.  Without a handler nothing happens; with no
     * session a new request is issued, pending ones or not; otherwise the
     * current session is asked to end.
     */
    method Click()
      requires Valid()
      modifies this
      ensures Valid()
      ensures !old(onclickSet) ==> unchanged(this)
      ensures old(onclickSet) && old(currentSession).None? ==>
        && requests == old(requests) + [SessionRequest("immersive-ar", sessionInit)]
        && pendingRequests == old(pendingRequests) + 1
        && endCalls == old(endCalls)
      ensures old(onclickSet) && old(currentSession).Some? ==>
        && endCalls == old(endCalls) + [old(currentSession).value]
        && requests == old(requests) && pendingRequests == old(pendingRequests)
      ensures currentSession == old(currentSession) && listeners == old(listeners)
      ensures text == old(text) && buttonDisplay == old(buttonDisplay) && onclickSet == old(onclickSet)
      ensures OverlayUnchanged()
    {
      if onclickSet {
        if currentSession.None? {
          requests := requests + [SessionRequest("immersive-ar", sessionInit)];
          pendingRequests := pendingRequests + 1;
        } else {
          endCalls := endCalls + [currentSession.value];
        }
      }
    }

    /** A click on the created overlay's close icon: `currentSession.end()`, which throws without a session. */
    method CloseIconClick()
      requires Valid() && hasCloseIcon
      modifies this
      ensures Valid()
      ensures endCalls == old(endCalls) + (if old(currentSession).Some? then [old(currentSession).value] else [])
      ensures currentSession == old(currentSession) && listeners == old(listeners)
      ensures requests == old(requests) && pendingRequests == old(pendingRequests)
      ensures text == old(text) && OverlayUnchanged()
    {
      if currentSession.Some? {
        endCalls := endCalls + [currentSession.value];
      }
    }

    /** `onSessionStarted(s)`, the `.then` of a pending `requestSession`. */
    method SessionStarted(s: Session)
      requires Valid() && pendingRequests > 0
      modifies this
      ensures Valid()
      ensures currentSession == Some(s) && listeners == old(listeners) + {s}
      ensures text == StopLabel && overlayDisplay == ""
      ensures pendingRequests == old(pendingRequests) - 1
      ensures requests == old(requests) && endCalls == old(endCalls)
      ensures sessionInit == old(sessionInit) && hasCloseIcon == old(hasCloseIcon)
      ensures onclickSet && buttonDisplay == old(buttonDisplay)
    {
      listeners := listeners + {s};
      text := StopLabel;
      overlayDisplay := "";
      currentSession := Some(s);
      pendingRequests := pendingRequests - 1;
    }

    /** A rejected `requestSession`: there is no handler, so only the request is gone. */
    method SessionRejected()
      requires Valid() && pendingRequests > 0
      modifies this
      ensures Valid()
      ensures pendingRequests == old(pendingRequests) - 1
      ensures currentSession == old(currentSession) && listeners == old(listeners)
      ensures requests == old(requests) && endCalls == old(endCalls)
      ensures text == old(text) && onclickSet == old(onclickSet) && OverlayUnchanged()
    {
      pendingRequests := pendingRequests - 1;
    }

    /**
     * Session `s` fires 'end'.  `onSessionEnded` runs when it is registered on
     * `s`; it unregisters itself from the CURRENT session and clears it, and
     * throws at once when there is no current session.
     */
    method SessionEnded(s: Session)
      requires Valid()
      modifies this
      ensures Valid()
      ensures s in old(listeners) && old(currentSession).Some? ==>
        && currentSession == None
        && listeners == old(listeners) - {old(currentSession).value}
        && text == ExploreLabel && overlayDisplay == "none"
      ensures !(s in old(listeners) && old(currentSession).Some?) ==> unchanged(this)
      ensures requests == old(requests) && pendingRequests == old(pendingRequests) && endCalls == old(endCalls)
      ensures sessionInit == old(sessionInit) && hasCloseIcon == old(hasCloseIcon) && onclickSet == old(onclickSet)
    {
      if s in listeners && currentSession.Some? {
        listeners := listeners - {currentSession.value};
        text := ExploreLabel;
        overlayDisplay := "none";
        currentSession := None;
      }
    }
  }

  /**
   * Start then end: once the session a click started has ended, the button is
   * back at its "Explore Sizes" label with the overlay hidden and no session,
   * and its listener is gone.
   */
  method StartThenEnd(init: SessionInit, rootDisplay: string, s: Session)
    returns (text: string, overlay: string, current: Option<Session>, listeners: set<Session>, ends: seq<Session>)
    requires init.domOverlay != Some(CreatedRoot)
    ensures text == ExploreLabel && overlay == "none" && current == None
    ensures listeners == {} && ends == [s]
  {
    var button := new Controller(init, rootDisplay);
    button.SupportResolved(true);
    button.Click();
    button.SessionStarted(s);
    button.Click();
    button.SessionEnded(s);
    text, overlay, current, listeners, ends := button.text, button.overlayDisplay, button.currentSession, button.listeners, button.endCalls;
  }

  /**
   * Once the support check failed or rejected, no number of clicks requests a
   * session.
   */
  method UnsupportedNeverRequests(rejected: bool, clicks: nat) returns (text: string, requests: seq<SessionRequest>)
    ensures text == UnsupportedLabel && requests == []
  {
    var button := new Controller(SessionInit(None, None, None), "");
    if rejected {
      button.SupportRejected();
    } else {
      button.SupportResolved(false);
    }
    var k := 0;
    while k < clicks
      invariant button.Valid() && button.settled && !button.onclickSet
    {
      button.Click();
      k := k + 1;
    }
    text, requests := button.text, button.requests;
  }

  /** Clicks while a request is pending are not guarded: each one issues a request of its own. */
  method RepeatedClicks(init: SessionInit, clicks: nat) returns (requests: seq<SessionRequest>)
    requires init.domOverlay != Some(CreatedRoot)
    ensures |requests| == clicks
    ensures forall i :: 0 <= i < |requests| ==> requests[i] == SessionRequest("immersive-ar", WithOverlay(init))
  {
    var button := new Controller(init, "");
    button.SupportResolved(true);
    var k := 0;
    while k < clicks
      invariant 0 <= k <= clicks
      invariant button.Valid() && button.onclickSet && button.currentSession == None
      invariant button.sessionInit == WithOverlay(init)
      invariant |button.requests| == k
      invariant forall i :: 0 <= i < k ==> button.requests[i] == SessionRequest("immersive-ar", WithOverlay(init))
    {
      button.Click();
      k := k + 1;
    }
    requests := button.requests;
  }
}
