/**
 * The biometric scan page (pages/BiometricScanPage): camera permission, a face scan and a retina
 * scan, each scan a counting loop. Only the end of the retina scan writes biometric data.
 */
module BiometricFlow {
  import opened Types
  import opened Storage
  import opened ScanProgress
  import Session

  /**
   * How getUserMedia settles: refused or failed, or a stream, with whether the video element is
   * mounted. The page renders the video whenever no denial is shown, so on the page a stream always
   * finds it mounted: `CameraStarted(false)` models the handler's `if (videoRef.current)` failing,
   * which the page as rendered never reaches.
   */
  datatype CameraResult = CameraFailed | CameraStarted(videoMounted: bool)

  class BiometricScanPage {
    var currentStep: ScanStep
    var scanProgress: nat
    var prompt: string
    var cameraAccess: bool
    var permissionDenied: bool
    /** A media stream is held and its tracks are live. */
    var streamActive: bool
    var navigatedTo: Option<Route>
    const session: Session.VotingProvider

    /**
     * Nothing is on before permission is asked, a denied or failed camera keeps the page in
     * 'camera-access', and the scans are reached only with the camera on.
     */
    ghost predicate Valid()
      reads this
    {
      && scanProgress <= ProgressLimit
      && (currentStep == PermissionRequest ==> !cameraAccess && !permissionDenied && !streamActive)
      && (permissionDenied ==> currentStep == CameraAccess && !cameraAccess)
      && (currentStep in {FaceScan, RetinaScan, Completed} ==> cameraAccess && streamActive)
    }

    constructor (session: Session.VotingProvider)
      ensures Valid() && this.session == session
      ensures currentStep == PermissionRequest && scanProgress == 0 && prompt == ""
      ensures !cameraAccess && !permissionDenied && !streamActive && navigatedTo == None
    {
      this.session := session;
      currentStep := PermissionRequest;
      scanProgress := 0;
      prompt := "";
      cameraAccess, permissionDenied, streamActive := false, false, false;
      navigatedTo := None;
    }

    /** The permission modal's "allow", then the camera start-up and the timer that opens the face scan. */
    method HandlePermissionGranted(camera: CameraResult)
      requires Valid() && currentStep == PermissionRequest
      modifies this
      ensures Valid() && scanProgress == old(scanProgress) && navigatedTo == old(navigatedTo)
      ensures camera == CameraStarted(true) ==>
        currentStep == FaceScan && cameraAccess && streamActive && !permissionDenied && prompt == "Camera ready"
      ensures camera == CameraStarted(false) ==>
        currentStep == CameraAccess && !cameraAccess && streamActive && !permissionDenied && prompt == "Initializing camera..."
      ensures camera == CameraFailed ==>
        currentStep == CameraAccess && permissionDenied && !cameraAccess && !streamActive && prompt == "Camera access denied"
    {
      currentStep := CameraAccess;
      prompt := "Initializing camera...";
      match camera
      case CameraFailed =>
        permissionDenied := true;
        prompt := "Camera access denied";
      case CameraStarted(videoMounted) =>
        streamActive := true;
        if videoMounted {
          cameraAccess := true;
          prompt := "Camera ready";
          currentStep := FaceScan;
        }
    }

    /** The permission modal's "deny". */
    method HandlePermissionDenied()
      requires Valid() && currentStep == PermissionRequest
      modifies this
      ensures Valid() && permissionDenied && currentStep == CameraAccess
      ensures cameraAccess == old(cameraAccess) && streamActive == old(streamActive) && prompt == old(prompt)
      ensures scanProgress == old(scanProgress) && navigatedTo == old(navigatedTo)
    {
      permissionDenied := true;
      currentStep := CameraAccess;
    }

    /** The face scan and the timer after it; returns the progress values shown. Nothing is written to the store. */
    method StartFaceScan() returns (shown: seq<nat>)
      requires Valid() && currentStep == FaceScan
      modifies this
      ensures Valid() && shown == Schedule(FaceStride, ProgressLimit)
      ensures currentStep == RetinaScan && scanProgress == 0 && prompt == "Face scan completed"
      ensures cameraAccess && streamActive && !permissionDenied && navigatedTo == old(navigatedTo)
    {
      scanProgress := 0;
      shown := Sweep(FaceStride, ProgressLimit);
      FaceScheduleReachesLimit();
      scanProgress := shown[|shown| - 1];
      prompt := "Face scan completed";
      currentStep := RetinaScan;
      scanProgress := 0;
    }

    /** The retina scan, the biometric record it writes (dated `now`), and the timer that completes the page. */
    method StartRetinaScan(now: Timestamp) returns (shown: seq<nat>)
      requires Valid() && currentStep == RetinaScan
      modifies this, session, session.storage
      ensures Valid() && shown == Schedule(RetinaStride, ProgressLimit)
      ensures currentStep == Completed && scanProgress == 90 && prompt == "Retina scan completed"
      ensures navigatedTo == old(navigatedTo)
      ensures session.biometricData == Some(BiometricData(true, true, now))
      ensures session.voterData == old(session.voterData) && session.vote == old(session.vote)
      ensures session.privacyCheck == old(session.privacyCheck)
      ensures session.storage.items ==
        Session.Saved(old(session.storage.items), Session.BiometricDataField, BiometricValue(BiometricData(true, true, now)))
    {
      scanProgress := 0;
      shown := Sweep(RetinaStride, ProgressLimit);
      RetinaScheduleStopsShort();
      scanProgress := shown[|shown| - 1];
      prompt := "Retina scan completed";
      session.SetBiometricData(BiometricData(true, true, now));
      currentStep := Completed;
    }

    method ProceedToVoting()
      requires Valid() && currentStep == Completed
      modifies this
      ensures Valid() && navigatedTo == Some(VotingRoute) && currentStep == Completed
      ensures scanProgress == old(scanProgress) && prompt == old(prompt) && cameraAccess == old(cameraAccess)
      ensures permissionDenied == old(permissionDenied) && streamActive == old(streamActive)
    {
      navigatedTo := Some(VotingRoute);
    }

    /** Back (disabled while the permission modal is up) stops the camera and leaves for the voter login. */
    method GoBack()
      requires Valid() && currentStep != PermissionRequest
      modifies this
      ensures !streamActive && navigatedTo == Some(VoterLoginRoute)
      ensures currentStep == old(currentStep) && cameraAccess == old(cameraAccess) && prompt == old(prompt)
      ensures permissionDenied == old(permissionDenied) && scanProgress == old(scanProgress)
    {
      streamActive := false;
      navigatedTo := Some(VoterLoginRoute);
    }
  }
}
