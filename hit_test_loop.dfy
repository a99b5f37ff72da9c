/**
 * The hit-test / reticle frame loop of main.js: `render` requests a hit-test
 * source once per session, registers the session's end listener, and on every
 * immersive frame polls the source to move and show or hide the reticle;
 * `placeAR` places the model group at the reticle.  The module-level variables
 * of main.js are the fields of the class `Scene`.  Each promise resolution or
 * rejection of the two-step source request is an event method of its own.
 */
module HitTestLoop {
  import opened Wrappers

  /** A 4x4 transform, as the 16 elements of a column-major float array. */
  type Matrix4 = m: seq<real> | |m| == 16
    witness [1.0, 0.0, 0.0, 0.0, 0.0, 1.0, 0.0, 0.0, 0.0, 0.0, 1.0, 0.0, 0.0, 0.0, 0.0, 1.0]

  /** The identity transform a freshly made reticle mesh carries. */
  const Identity: Matrix4 := [1.0, 0.0, 0.0, 0.0, 0.0, 1.0, 0.0, 0.0, 0.0, 0.0, 1.0, 0.0, 0.0, 0.0, 0.0, 1.0]

  datatype Vector3 = Vector3(x: real, y: real, z: real)

  /** Opaque handle of a resolved hit-test source. */
  datatype Source = Source(id: nat)

  /** One hit-test result; `getPose` may yield no pose (None). */
  datatype HitResult = HitResult(pose: Option<Matrix4>)

  /** A frame as `render` sees it: absent, or the results of polling the current source. */
  type Frame = Option<seq<HitResult>>

  /** The y rotation `placeAR` gives the group, as written (the source's units). */
  const PlacedRotationY: real := -160.0

  /** `Vector3.setFromMatrixPosition`: the translation column, elements 12, 13 and 14. */
  function Translation(m: Matrix4): Vector3
  {
    Vector3(m[12], m[13], m[14])
  }

  class Scene {
    // loop state
    var hitTestSourceRequested: bool
    var hitTestSource: Option<Source>
    var reticleVisible: bool
    var reticleMatrix: Matrix4
    var placeBtnDisplay: string
    var sliderMenuBtnDisplay: string
    // requests issued and listeners registered
    var spaceRequests: nat           // `requestReferenceSpace('viewer')` calls, all sessions
    var endListeners: nat            // end listeners registered on the current session
    var pendingSpaceRequests: nat    // reference-space promises not yet settled
    var pendingSourceRequests: nat   // hit-test-source promises not yet settled
    ghost var sessionRequests: nat   // reference-space requests since the current session began
    // the placeable group and `current_object`
    var currentObjectSet: bool       // `current_object === group` (undefined until the first placement)
    var groupInScene: bool
    var groupVisible: bool
    var groupPosition: Vector3
    var groupRotationY: real

    ghost predicate Valid()
      reads this
    {
      && sessionRequests == endListeners == (if hitTestSourceRequested then 1 else 0)
      && (reticleVisible ==> hitTestSourceRequested && hitTestSource.Some?)
      && (reticleVisible ==> placeBtnDisplay == "block" && sliderMenuBtnDisplay == "block")
      && (currentObjectSet ==> groupInScene)
    }

    twostate predicate ReticleUnchanged()
      reads this
    {
      reticleVisible == old(reticleVisible) && reticleMatrix == old(reticleMatrix)
    }

    twostate predicate ButtonsUnchanged()
      reads this
    {
      placeBtnDisplay == old(placeBtnDisplay) && sliderMenuBtnDisplay == old(sliderMenuBtnDisplay)
    }

    twostate predicate RequestsUnchanged()
      reads this
    {
      && hitTestSourceRequested == old(hitTestSourceRequested)
      && spaceRequests == old(spaceRequests) && endListeners == old(endListeners)
      && sessionRequests == old(sessionRequests)
    }

    twostate predicate GroupUnchanged()
      reads this
    {
      && currentObjectSet == old(currentObjectSet) && groupInScene == old(groupInScene)
      && groupVisible == old(groupVisible) && groupPosition == old(groupPosition)
      && groupRotationY == old(groupRotationY)
    }

    /** Module initialisation: no source, reticle hidden at the identity; the buttons' display comes from the page. */
    constructor (placeBtnDisplay0: string, sliderMenuBtnDisplay0: string)
      ensures Valid()
      ensures !hitTestSourceRequested && hitTestSource == None
      ensures !reticleVisible && reticleMatrix == Identity
      ensures placeBtnDisplay == placeBtnDisplay0 && sliderMenuBtnDisplay == sliderMenuBtnDisplay0
      ensures spaceRequests == 0 && endListeners == 0
      ensures pendingSpaceRequests == 0 && pendingSourceRequests == 0
      ensures !currentObjectSet && !groupInScene && groupVisible
      ensures groupPosition == Vector3(0.0, 0.0, 0.0) && groupRotationY == 0.0
    {
      hitTestSourceRequested, hitTestSource := false, None;
      reticleVisible, reticleMatrix := false, Identity;
      placeBtnDisplay, sliderMenuBtnDisplay := placeBtnDisplay0, sliderMenuBtnDisplay0;
      spaceRequests, endListeners, sessionRequests := 0, 0, 0;
      pendingSpaceRequests, pendingSourceRequests := 0, 0;
      currentObjectSet, groupInScene, groupVisible := false, false, true;
      groupPosition, groupRotationY := Vector3(0.0, 0.0, 0.0), 0.0;
    }

    /** `render(timestamp, frame)`, apart from drawing the scene. */
    method Render(frame: Frame)
      requires Valid()
      modifies this
      ensures Valid()
      // without a frame nothing changes
      ensures frame.None? ==> unchanged(this)
      // the first frame of a session issues one request and registers one end listener; later ones issue none
      ensures frame.Some? ==> hitTestSourceRequested
      ensures frame.Some? && !old(hitTestSourceRequested) ==>
        && spaceRequests == old(spaceRequests) + 1
        && pendingSpaceRequests == old(pendingSpaceRequests) + 1
        && endListeners == 1 && sessionRequests == 1
      ensures old(hitTestSourceRequested) ==>
        RequestsUnchanged() && pendingSpaceRequests == old(pendingSpaceRequests)
      ensures hitTestSource == old(hitTestSource) && pendingSourceRequests == old(pendingSourceRequests)
      ensures GroupUnchanged()
      // no source: the reticle and the buttons stay as they were
      ensures hitTestSource.None? ==> ReticleUnchanged() && ButtonsUnchanged()
      // a source and at least one hit: reticle shown at the first hit's pose, buttons shown
      ensures frame.Some? && hitTestSource.Some? && |frame.value| > 0 ==>
        && reticleVisible
        && placeBtnDisplay == "block" && sliderMenuBtnDisplay == "block"
        && reticleMatrix == (if frame.value[0].pose.Some? then frame.value[0].pose.value else old(reticleMatrix))
      // a source and no hit: only the reticle's visibility changes
      ensures frame.Some? && hitTestSource.Some? && |frame.value| == 0 ==>
        !reticleVisible && reticleMatrix == old(reticleMatrix) && ButtonsUnchanged()
    {
      if frame.Some? {
        if !hitTestSourceRequested {
          spaceRequests := spaceRequests + 1;
          pendingSpaceRequests := pendingSpaceRequests + 1;
          sessionRequests := sessionRequests + 1;
          endListeners := endListeners + 1;
          hitTestSourceRequested := true;
        }
        if hitTestSource.Some? {
          var results := frame.value;
          if |results| > 0 {
            var hit := results[0];
            placeBtnDisplay := "block";
            sliderMenuBtnDisplay := "block";
            reticleVisible := true;
            match hit.pose
            case Some(m) => reticleMatrix := m;
            case None => // `getPose` gave null: reading `.transform` throws and the matrix is not set
          } else {
            reticleVisible := false;
          }
        }
      }
    }

    /** The `.then` of `requestReferenceSpace('viewer')`: requests the hit-test source. */
    method ResolveReferenceSpace()
      requires Valid() && pendingSpaceRequests > 0
      modifies this
      ensures Valid()
      ensures pendingSpaceRequests == old(pendingSpaceRequests) - 1
      ensures pendingSourceRequests == old(pendingSourceRequests) + 1
      ensures hitTestSource == old(hitTestSource)
      ensures RequestsUnchanged() && ReticleUnchanged() && ButtonsUnchanged() && GroupUnchanged()
    {
      pendingSpaceRequests := pendingSpaceRequests - 1;
      pendingSourceRequests := pendingSourceRequests + 1;
    }

    /** A rejected reference-space request: there is no handler, the request is simply gone. */
    method RejectReferenceSpace()
      requires Valid() && pendingSpaceRequests > 0
      modifies this
      ensures Valid()
      ensures pendingSpaceRequests == old(pendingSpaceRequests) - 1
      ensures pendingSourceRequests == old(pendingSourceRequests)
      ensures hitTestSource == old(hitTestSource)
      ensures RequestsUnchanged() && ReticleUnchanged() && ButtonsUnchanged() && GroupUnchanged()
    {
      pendingSpaceRequests := pendingSpaceRequests - 1;
    }

    /** The `.then` of `requestHitTestSource`: stores the source, whatever happened since the request. */
    method ResolveSource(s: Source)
      requires Valid() && pendingSourceRequests > 0
      modifies this
      ensures Valid()
      ensures hitTestSource == Some(s)
      ensures pendingSourceRequests == old(pendingSourceRequests) - 1
      ensures pendingSpaceRequests == old(pendingSpaceRequests)
      ensures RequestsUnchanged() && ReticleUnchanged() && ButtonsUnchanged() && GroupUnchanged()
    {
      pendingSourceRequests := pendingSourceRequests - 1;
      hitTestSource := Some(s);
    }

    /** A rejected hit-test-source request: no handler, the loop keeps whatever source it had. */
    method RejectSource()
      requires Valid() && pendingSourceRequests > 0
      modifies this
      ensures Valid()
      ensures hitTestSource == old(hitTestSource)
      ensures pendingSourceRequests == old(pendingSourceRequests) - 1
      ensures pendingSpaceRequests == old(pendingSpaceRequests)
      ensures RequestsUnchanged() && ReticleUnchanged() && ButtonsUnchanged() && GroupUnchanged()
    {
      pendingSourceRequests := pendingSourceRequests - 1;
    }

    /**
     * The current session's 'end' event.  The listener `render` registered
     * resets the loop; it then centres the controls on `current_object`, which
     * throws while no object was ever placed, so the buttons are hidden only
     * after a placement.  Pending requests are not cancelled.
     */
    method SessionEnd()
      requires Valid()
      modifies this
      ensures Valid()
      ensures !hitTestSourceRequested && endListeners == 0 && sessionRequests == 0
      ensures spaceRequests == old(spaceRequests)
      ensures pendingSpaceRequests == old(pendingSpaceRequests)
      ensures pendingSourceRequests == old(pendingSourceRequests)
      ensures reticleMatrix == old(reticleMatrix) && GroupUnchanged()
      ensures old(endListeners) > 0 ==> hitTestSource == None && !reticleVisible
      ensures old(endListeners) > 0 && currentObjectSet ==>
        placeBtnDisplay == "none" && sliderMenuBtnDisplay == "none"
      ensures old(endListeners) == 0 || !currentObjectSet ==> ButtonsUnchanged()
      ensures old(endListeners) == 0 ==> hitTestSource == old(hitTestSource) && ReticleUnchanged()
    {
      if endListeners > 0 {
        hitTestSourceRequested := false;
        hitTestSource := None;
        reticleVisible := false;
        if currentObjectSet {
          placeBtnDisplay := "none";
          sliderMenuBtnDisplay := "none";
        }
      }
      endListeners, sessionRequests := 0, 0;
    }

    /** `placeAR`: puts the group at the reticle's position, only while the reticle is visible. */
    method PlaceAR()
      requires Valid()
      modifies this
      ensures Valid()
      ensures !old(reticleVisible) ==> unchanged(this)
      ensures old(reticleVisible) ==>
        && currentObjectSet && groupInScene && groupVisible
        && groupPosition == Translation(reticleMatrix)
        && groupRotationY == PlacedRotationY
      ensures hitTestSource == old(hitTestSource)
      ensures pendingSpaceRequests == old(pendingSpaceRequests)
      ensures pendingSourceRequests == old(pendingSourceRequests)
      ensures RequestsUnchanged() && ReticleUnchanged() && ButtonsUnchanged()
    {
      if reticleVisible {
        groupInScene := true;
        currentObjectSet := true;
        groupPosition := Translation(reticleMatrix);
        groupVisible := true;
        groupRotationY := PlacedRotationY;
        Render(None);
      }
    }
  }

  /**
   * However many frames a session renders before the source arrives, it issues
   * at most one reference-space request, and exactly one once a frame came.
   */
  method RequestsInOneSession(frames: seq<Frame>) returns (requests: nat, listeners: nat)
    ensures requests == listeners
    ensures requests == (if exists i :: 0 <= i < |frames| && frames[i].Some? then 1 else 0)
  {
    var scene := new Scene("none", "none");
    var k := 0;
    while k < |frames|
      invariant 0 <= k <= |frames|
      invariant scene.Valid()
      invariant scene.spaceRequests == scene.endListeners
      invariant scene.hitTestSourceRequested <==> exists i :: 0 <= i < k && frames[i].Some?
    {
      scene.Render(frames[k]);
      k := k + 1;
    }
    requests, listeners := scene.spaceRequests, scene.endListeners;
  }

  /**
   * A source request still pending when the session ends resolves afterwards
   * and is stored: nothing drops the late source.
   */
  method LateSourceAfterSessionEnd(s: Source) returns (source: Option<Source>, requested: bool)
    ensures source == Some(s) && !requested
  {
    var scene := new Scene("none", "none");
    scene.Render(Some([]));
    scene.ResolveReferenceSpace();
    scene.SessionEnd();
    scene.ResolveSource(s);
    source, requested := scene.hitTestSource, scene.hitTestSourceRequested;
  }

  /**
   * Frame 1 requests, frame 2 arrives before the source, frame 3 has a hit:
   * the reticle shows that hit's pose and placing the group takes its translation.
   */
  method TrackAndPlace(pose: Matrix4, s: Source) returns (visible: bool, matrix: Matrix4, position: Vector3, requests: nat)
    ensures visible && matrix == pose && position == Translation(pose) && requests == 1
  {
    var scene := new Scene("none", "none");
    scene.Render(Some([]));
    scene.Render(Some([]));
    scene.ResolveReferenceSpace();
    scene.ResolveSource(s);
    scene.Render(Some([HitResult(Some(pose))]));
    scene.PlaceAR();
    visible, matrix, position, requests := scene.reticleVisible, scene.reticleMatrix, scene.groupPosition, scene.spaceRequests;
  }
}
