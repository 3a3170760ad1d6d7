/** The photo-mode try-on page (src/pages/VirtualTryOnPage.v2.tsx): three
    flags decide which panel is shown, the camera/capture/upload/reset
    handlers move between them, and `drawEyewearOnPhoto` places the frame
    bitmap on the still image. */
module PhotoTryOn {
  import opened Models
  import opened TryOn

  // ---------------------------------------------------------------------
  // Panels
  // ---------------------------------------------------------------------

  datatype Panel = IdlePanel | CameraPanel | PhotoPanel

  // The three render conditions, each as the page writes it.
  predicate ShowsIdle(cameraEnabled: bool, photoMode: bool) { !cameraEnabled && !photoMode }
  predicate ShowsCamera(cameraEnabled: bool, photoMode: bool) { cameraEnabled && !photoMode }
  predicate ShowsPhoto(cameraEnabled: bool, photoMode: bool) { photoMode }

  /** The panel on screen: for every flag combination exactly one of the three
      render conditions holds, and it is the one named here. */
  function VisiblePanel(cameraEnabled: bool, photoMode: bool): (p: Panel)
    ensures p == IdlePanel <==> ShowsIdle(cameraEnabled, photoMode)
    ensures p == CameraPanel <==> ShowsCamera(cameraEnabled, photoMode)
    ensures p == PhotoPanel <==> ShowsPhoto(cameraEnabled, photoMode)
  {
    if photoMode then PhotoPanel
    else if cameraEnabled then CameraPanel
    else IdlePanel
  }

  /** No two panels are ever rendered together, and one always is. */
  lemma ExactlyOnePanel(cameraEnabled: bool, photoMode: bool)
    ensures ShowsIdle(cameraEnabled, photoMode) || ShowsCamera(cameraEnabled, photoMode) || ShowsPhoto(cameraEnabled, photoMode)
    ensures !(ShowsIdle(cameraEnabled, photoMode) && ShowsCamera(cameraEnabled, photoMode))
    ensures !(ShowsIdle(cameraEnabled, photoMode) && ShowsPhoto(cameraEnabled, photoMode))
    ensures !(ShowsCamera(cameraEnabled, photoMode) && ShowsPhoto(cameraEnabled, photoMode))
  {
  }

  // ---------------------------------------------------------------------
  // Placement of the frame bitmap
  // ---------------------------------------------------------------------

  /** The canvas is translated to the centre and rotated; the bitmap is drawn
      with its top-left corner at (drawX, drawY) in that frame. */
  datatype PhotoPlacement = PhotoPlacement(
    centerX: real, centerY: real,
    width: real, height: real,
    drawX: real, drawY: real)

  function PlacePhotoOverlay(lm: LandmarkSet, imageW: real, imageH: real, eyeDistance: real): (o: PhotoPlacement)
    requires IsEyeDistance(lm, imageW, imageH, eyeDistance)
    ensures o.width == 2.0 * eyeDistance && o.height == 0.5 * o.width
    ensures o.drawX + o.width / 2.0 == 0.0 && o.drawY + o.height / 2.0 == 0.0
    ensures o.centerX == (PixelX(lm[LeftEyeOuter], imageW) + PixelX(lm[RightEyeOuter], imageW)) / 2.0
    ensures o.centerY == (PixelY(lm[LeftEyeOuter], imageH) + PixelY(lm[RightEyeOuter], imageH)) / 2.0
  {
    var w := eyeDistance * 2.0;
    var h := w * 0.5;
    PhotoPlacement(
      ((lm[LeftEyeOuter].x + lm[RightEyeOuter].x) / 2.0) * imageW,
      ((lm[LeftEyeOuter].y + lm[RightEyeOuter].y) / 2.0) * imageH,
      w, h, -w / 2.0, -h / 2.0)
  }

  /** The photo bitmap is centred where the live drawing is centred, and is
      4/3 as wide (factor 2 against 1.5) and 5/3 as tall (0.5 against 0.4 of
      its width, on a wider frame). */
  lemma PhotoAndLivePlacementAgree(lm: LandmarkSet, w: real, h: real, eyeDistance: real)
    requires IsEyeDistance(lm, w, h, eyeDistance)
    ensures var p := PlacePhotoOverlay(lm, w, h, eyeDistance);
      var l := PlaceLiveOverlay(lm, w, h, eyeDistance);
      p.centerX == l.centerX && p.centerY == l.centerY &&
      3.0 * p.width == 4.0 * l.width && 3.0 * p.height == 5.0 * l.height
  {
  }

  /** What `drawEyewearOnPhoto` leaves on the overlay canvas. */
  datatype PhotoCanvas =
    | NoCanvas                                        // canvas or context missing: nothing drawn
    | Painted(width: real, height: real, frame: Option<PhotoPlacement>)

  /** `drawEyewearOnPhoto` for one detector result. The photo itself is
      always drawn; `productImageSet` says whether `productImageRef.current`
      holds the product's bitmap. */
  function DrawEyewearOnPhoto(canvasReady: bool, detection: Option<LandmarkSet>, productSelected: bool,
                              productImageSet: bool, imageW: real, imageH: real, eyeDistance: real): (c: PhotoCanvas)
    requires detection.Some? ==> IsEyeDistance(detection.value, imageW, imageH, eyeDistance)
    ensures c.NoCanvas? <==> !canvasReady
    ensures c.Painted? ==> c.width == imageW && c.height == imageH
    ensures c.Painted? && c.frame.Some? <==>
      canvasReady && detection.Some? && productSelected && productImageSet
    ensures c.Painted? && c.frame.Some? ==>
      c.frame.value == PlacePhotoOverlay(detection.value, imageW, imageH, eyeDistance)
  {
    if !canvasReady then NoCanvas
    else if detection.None? || !productSelected then Painted(imageW, imageH, None)
    else if !productImageSet then Painted(imageW, imageH, None)
    else Painted(imageW, imageH, Some(PlacePhotoOverlay(detection.value, imageW, imageH, eyeDistance)))
  }

  // ---------------------------------------------------------------------
  // The page's session state
  // ---------------------------------------------------------------------

  /** The page's flags, plus whether the video element holds a live stream
      (`video.srcObject`). */
  class PhotoSession {
    var cameraEnabled: bool
    var photoMode: bool
    var photoImage: Option<string>
    var isLoading: bool
    var streamAttached: bool

    /** A photo is shown exactly when one is held. */
    ghost predicate Valid()
      reads this
    {
      photoMode == photoImage.Some?
    }

    /** The video element exists only while the camera panel is rendered. */
    predicate VideoMounted()
      reads this
    {
      ShowsCamera(cameraEnabled, photoMode)
    }

    constructor ()
      ensures Valid()
      ensures !cameraEnabled && !photoMode && photoImage == None && !isLoading && !streamAttached
    {
      cameraEnabled := false;
      photoMode := false;
      photoImage := None;
      isLoading := false;
      streamAttached := false;
    }

    /** `startCamera` as written: the video element is looked up in the same
        turn that sets `cameraEnabled`, so it is the element of the panel
        rendered before the call. `granted` is the outcome of the device
        request. */
    method StartCamera(granted: bool)
      requires Valid()
      modifies this
      ensures Valid()
      ensures cameraEnabled && !isLoading
      ensures streamAttached == (old(streamAttached) || (old(VideoMounted()) && granted))
      ensures photoMode == old(photoMode) && photoImage == old(photoImage)
    {
      var videoMounted := VideoMounted();
      isLoading := true;
      cameraEnabled := true;
      if !videoMounted {
        isLoading := false;
        return;
      }
      if granted {
        streamAttached := true;
      }
      isLoading := false;
    }

    /** `startCamera` waiting for the video element to mount before looking it
        up, as the live page does. */
    method StartCameraAfterMount(granted: bool)
      requires Valid()
      modifies this
      ensures Valid()
      ensures cameraEnabled && !isLoading
      ensures streamAttached == (old(streamAttached) || (!photoMode && granted))
      ensures photoMode == old(photoMode) && photoImage == old(photoImage)
    {
      isLoading := true;
      cameraEnabled := true;
      var videoMounted := VideoMounted();
      if !videoMounted {
        isLoading := false;
        return;
      }
      if granted {
        streamAttached := true;
      }
      isLoading := false;
    }

    /** `capturePhoto`: `snapshot` is the encoded frame. The canvas applies
        the same flip as the preview (`TryOn.CanvasFlipIsPreviewFlip`), so the
        photo shows the face as the preview did. Afterwards the detection
        effect runs on the photo. */
    method CapturePhoto(contextAvailable: bool, snapshot: string)
      requires Valid()
      modifies this
      ensures Valid()
      ensures !old(VideoMounted()) || !contextAvailable ==>
        cameraEnabled == old(cameraEnabled) && photoMode == old(photoMode) &&
        photoImage == old(photoImage) && streamAttached == old(streamAttached)
      ensures old(VideoMounted()) && contextAvailable ==>
        photoMode && photoImage == Some(snapshot) && !cameraEnabled && !streamAttached && DetectionRuns()
      ensures isLoading == old(isLoading)
    {
      if !VideoMounted() {
        return;
      }
      if !contextAvailable {
        return;
      }
      photoImage := Some(snapshot);
      photoMode := true;
      if streamAttached {
        streamAttached := false;
      }
      cameraEnabled := false;
    }

    /** `handleUpload`: `file` is the data URL read from the chosen file, or
        None when nothing was chosen. */
    method HandleUpload(file: Option<string>)
      requires Valid()
      modifies this
      ensures Valid()
      ensures file.None? ==>
        photoMode == old(photoMode) && photoImage == old(photoImage)
      ensures file.Some? ==> photoMode && photoImage == file && DetectionRuns()
      ensures cameraEnabled == old(cameraEnabled) && streamAttached == old(streamAttached)
      ensures isLoading == old(isLoading)
    {
      if file.None? {
        return;
      }
      photoImage := file;
      photoMode := true;
    }

    /** `resetPhoto`: the new state does not depend on the old one, so a
        second reset changes nothing. */
    method ResetPhoto()
      requires Valid()
      modifies this`photoMode, this`photoImage, this`cameraEnabled
      ensures Valid()
      ensures !photoMode && photoImage == None && !cameraEnabled
      ensures VisiblePanel(cameraEnabled, photoMode) == IdlePanel && !DetectionRuns()
    {
      photoMode := false;
      photoImage := None;
      cameraEnabled := false;
    }

    /** The condition of the detection effect (lines 126-154): it runs the
        detector on the photo whenever photo mode is on and a photo is held. */
    predicate DetectionRuns()
      reads this
    {
      photoMode && photoImage.Some?
    }
  }

  /** "Open Camera" from a fresh page, as written: the camera panel appears
      but no stream is ever attached, whatever the device answers. */
  method OpenCameraFromIdle(granted: bool) returns (attached: bool, panel: Panel)
    ensures !attached && panel == CameraPanel
  {
    var s := new PhotoSession();
    s.StartCamera(granted);
    attached := s.streamAttached;
    panel := VisiblePanel(s.cameraEnabled, s.photoMode);
  }

  /** The same click when the handler waits for the video element: the
      stream is attached exactly when the device is granted. */
  method OpenCameraFromIdleAfterMount(granted: bool) returns (attached: bool, panel: Panel)
    ensures attached == granted && panel == CameraPanel
  {
    var s := new PhotoSession();
    s.StartCameraAfterMount(granted);
    attached := s.streamAttached;
    panel := VisiblePanel(s.cameraEnabled, s.photoMode);
  }

  /** Open, capture, reset and reset again: the capture shows the photo
      panel with the stream released, and both resets end on the idle panel. */
  method CaptureThenReset(snapshot: string) returns (afterCapture: Panel, afterReset: Panel, afterSecondReset: Panel)
    ensures afterCapture == PhotoPanel && afterReset == IdlePanel && afterSecondReset == IdlePanel
  {
    var s := new PhotoSession();
    s.StartCameraAfterMount(true);
    s.CapturePhoto(true, snapshot);
    assert !s.streamAttached && s.photoImage == Some(snapshot);
    afterCapture := VisiblePanel(s.cameraEnabled, s.photoMode);
    s.ResetPhoto();
    afterReset := VisiblePanel(s.cameraEnabled, s.photoMode);
    s.ResetPhoto();
    afterSecondReset := VisiblePanel(s.cameraEnabled, s.photoMode);
  }
}
