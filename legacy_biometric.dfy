/**
 * The older biometric scan page (src/BiometricScanPage): the same face and retina scans, but the
 * camera is simulated and always becomes ready, and Back only navigates.
 */
module LegacyBiometricFlow {
  import opened Types
  import opened Storage
  import opened ScanProgress
  import Session

  class BiometricScanPage {
    var currentStep: ScanStep
    var scanProgress: nat
    var prompt: string
    var cameraAccess: bool
    var permissionDenied: bool
    var navigatedTo: Option<Route>
    const session: Session.VotingProvider

    /** Nothing is on before permission is asked, denial keeps the page in 'camera-access', and the scans need the camera. */
    ghost predicate Valid()
      reads this
    {
      && scanProgress <= ProgressLimit
      && (currentStep == PermissionRequest ==> !cameraAccess && !permissionDenied)
      && (permissionDenied ==> currentStep == CameraAccess && !cameraAccess)
      && (currentStep in {FaceScan, RetinaScan, Completed} ==> cameraAccess)
    }

    constructor (session: Session.VotingProvider)
      ensures Valid() && this.session == session
      ensures currentStep == PermissionRequest && scanProgress == 0 && prompt == ""
      ensures !cameraAccess && !permissionDenied && navigatedTo == None
    {
      this.session := session;
      currentStep := PermissionRequest;
      scanProgress := 0;
      prompt := "";
      cameraAccess, permissionDenied := false, false;
      navigatedTo := None;
    }

    /** The simulated camera start-up: after its two delays the camera is ready and the face scan opens. */
    method SimulateCameraAccess()
      requires currentStep == CameraAccess && !permissionDenied
      modifies this
      ensures cameraAccess && prompt == "Camera ready" && currentStep == FaceScan
      ensures permissionDenied == old(permissionDenied) && scanProgress == old(scanProgress) && navigatedTo == old(navigatedTo)
    {
      prompt := "Initializing camera...";
      cameraAccess := true;
      prompt := "Camera ready";
      currentStep := FaceScan;
    }

    /** The permission modal's "allow": the page moves to 'camera-access' and runs the simulated start-up. */
    method HandlePermissionGranted()
      requires Valid() && currentStep == PermissionRequest
      modifies this
      ensures Valid() && currentStep == FaceScan && cameraAccess && !permissionDenied
      ensures prompt == "Camera ready" && scanProgress == old(scanProgress) && navigatedTo == old(navigatedTo)
    {
      currentStep := CameraAccess;
      SimulateCameraAccess();
    }

    /** The permission modal's "deny". */
    method HandlePermissionDenied()
      requires Valid() && currentStep == PermissionRequest
      modifies this
      ensures Valid() && permissionDenied && currentStep == CameraAccess
      ensures cameraAccess == old(cameraAccess) && prompt == old(prompt) && navigatedTo == old(navigatedTo)
      ensures scanProgress == old(scanProgress)
    {
      permissionDenied := true;
      currentStep := CameraAccess;
    }

    /** The face scan and the timer after it; returns the progress values shown. Nothing is written to the store. */
    method StartFaceScan() returns (shown: seq<nat>)
      requires Valid() && currentStep == FaceScan
      modifies this
      ensures Valid() && shown == Schedule(FaceStride, ProgressLimit)
      ensures currentStep == RetinaScan && scanProgress == 0 && prompt == "Face scan completed"
      ensures cameraAccess && !permissionDenied && navigatedTo == old(navigatedTo)
    {
      scanProgress := 0;
      shown := Sweep(FaceStride, ProgressLimit);
      FaceScheduleReachesLimit();
      scanProgress := shown[|shown| - 1];
      prompt := "Face scan completed";
      currentStep := RetinaScan;
      scanProgress := 0;
    }

    /** The retina scan, the biometric record it writes (dated `now`), and the timer that completes the page. */
    method StartRetinaScan(now: Timestamp) returns (shown: seq<nat>)
      requires Valid() && currentStep == RetinaScan
      modifies this, session, session.storage
      ensures Valid() && shown == Schedule(RetinaStride, ProgressLimit)
      ensures currentStep == Completed && scanProgress == 90 && prompt == "Retina scan completed"
      ensures navigatedTo == old(navigatedTo)
      ensures session.biometricData == Some(BiometricData(true, true, now))
      ensures session.voterData == old(session.voterData) && session.vote == old(session.vote)
      ensures session.privacyCheck == old(session.privacyCheck)
      ensures session.storage.items ==
        Session.Saved(old(session.storage.items), Session.BiometricDataField, BiometricValue(BiometricData(true, true, now)))
    {
      scanProgress := 0;
      shown := Sweep(RetinaStride, ProgressLimit);
      RetinaScheduleStopsShort();
      scanProgress := shown[|shown| - 1];
      prompt := "Retina scan completed";
      session.SetBiometricData(BiometricData(true, true, now));
      currentStep := Completed;
    }

    method ProceedToVoting()
      requires Valid() && currentStep == Completed
      modifies this
      ensures Valid() && navigatedTo == Some(VotingRoute) && currentStep == Completed
      ensures scanProgress == old(scanProgress) && prompt == old(prompt) && cameraAccess == old(cameraAccess)
      ensures permissionDenied == old(permissionDenied)
    {
      navigatedTo := Some(VotingRoute);
    }

    /** Back (disabled while the permission modal is up) only navigates to the voter login. */
    method GoBack()
      requires Valid() && currentStep != PermissionRequest
      modifies this
      ensures navigatedTo == Some(VoterLoginRoute)
      ensures currentStep == old(currentStep) && cameraAccess == old(cameraAccess) && prompt == old(prompt)
      ensures permissionDenied == old(permissionDenied) && scanProgress == old(scanProgress)
    {
      navigatedTo := Some(VoterLoginRoute);
    }
  }
}
