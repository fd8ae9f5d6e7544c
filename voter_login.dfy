/**
 * The voter verification page (VoterLoginPage): an ID step that accepts any non-empty identification
 * number, then an OTP step that accepts only the fixed code. Each handler's delays are one transition.
 */
module VoterLoginFlow {
  import opened Types
  import opened Storage
  import Session

  datatype LoginStep = Verification | Otp
  datatype VerificationStatus = Idle | Verifying | Verified

  const OtpCode := "123456"
  const MissingIdError := "Please enter at least one identification number"
  const InvalidOtpError := "Invalid OTP. Please enter 123456"
  const MissingPhoneError := "Please enter your phone number"

  /** `aadharNumber || panNumber || voterIdNumber`: a string is truthy exactly when it is non-empty. */
  predicate IdentityProvided(aadhar: string, pan: string, voterId: string) {
    aadhar != "" || pan != "" || voterId != ""
  }

  /** The record the ID step writes, and the OTP step rewrites with the phone number. */
  function VerifiedVoter(aadhar: string, pan: string, voterId: string, phone: Option<string>): (d: VoterData)
    ensures d.isVerified && d.phoneNumber == phone
    ensures d.aadharNumber == Some(aadhar) && d.panNumber == Some(pan) && d.voterIdNumber == Some(voterId)
  {
    VoterData(Some(aadhar), Some(pan), Some(voterId), phone, true)
  }

  class VoterLoginPage {
    var step: LoginStep
    var aadharNumber: string
    var panNumber: string
    var voterIdNumber: string
    var phoneNumber: string
    var otp: string
    var isLoading: bool
    var error: string
    var verificationStatus: VerificationStatus
    var navigatedTo: Option<Route>
    const session: Session.VotingProvider

    /** Between transitions nothing is loading or verifying, and the OTP step is reached only verified. */
    ghost predicate Valid()
      reads this
    {
      && !isLoading
      && verificationStatus != Verifying
      && (step == Otp ==> verificationStatus == Verified)
    }

    constructor (session: Session.VotingProvider)
      ensures Valid() && this.session == session
      ensures step == Verification && verificationStatus == Idle && error == "" && navigatedTo == None
      ensures aadharNumber == "" && panNumber == "" && voterIdNumber == "" && phoneNumber == "" && otp == ""
    {
      this.session := session;
      step := Verification;
      aadharNumber, panNumber, voterIdNumber, phoneNumber, otp := "", "", "", "", "";
      isLoading := false;
      error := "";
      verificationStatus := Idle;
      navigatedTo := None;
    }

    /** Submitting the ID form, which is shown only in the verification step. */
    method HandleVerification()
      requires Valid() && step == Verification
      modifies this, session, session.storage
      ensures Valid() && navigatedTo == old(navigatedTo)
      ensures aadharNumber == old(aadharNumber) && panNumber == old(panNumber) && voterIdNumber == old(voterIdNumber)
      ensures phoneNumber == old(phoneNumber) && otp == old(otp)
      ensures IdentityProvided(aadharNumber, panNumber, voterIdNumber) ==>
        && verificationStatus == Verified && step == Otp && error == ""
        && session.voterData == Some(VerifiedVoter(aadharNumber, panNumber, voterIdNumber, None))
        && session.biometricData == old(session.biometricData) && session.vote == old(session.vote)
        && session.privacyCheck == old(session.privacyCheck)
        && session.storage.items == Session.Saved(old(session.storage.items), Session.VoterDataField,
             VoterDataValue(VerifiedVoter(aadharNumber, panNumber, voterIdNumber, None)))
      ensures !IdentityProvided(aadharNumber, panNumber, voterIdNumber) ==>
        && verificationStatus == Idle && step == Verification && error == MissingIdError
        && unchanged(session) && unchanged(session.storage)
    {
      error := "";
      isLoading := true;
      verificationStatus := Verifying;
      if IdentityProvided(aadharNumber, panNumber, voterIdNumber) {
        verificationStatus := Verified;
        session.SetVoterData(VerifiedVoter(aadharNumber, panNumber, voterIdNumber, None));
        step := Otp;
        isLoading := false;
      } else {
        error := MissingIdError;
        verificationStatus := Idle;
        isLoading := false;
      }
    }

    /** Submitting the OTP form, which is shown only in the OTP step. */
    method HandleOtpVerification()
      requires Valid() && step == Otp
      modifies this, session, session.storage
      ensures Valid() && step == Otp && verificationStatus == old(verificationStatus) && !isLoading
      ensures aadharNumber == old(aadharNumber) && panNumber == old(panNumber) && voterIdNumber == old(voterIdNumber)
      ensures phoneNumber == old(phoneNumber) && otp == old(otp)
      ensures otp == OtpCode ==>
        && error == "" && navigatedTo == Some(BiometricScanRoute)
        && session.voterData == Some(VerifiedVoter(aadharNumber, panNumber, voterIdNumber, Some(phoneNumber)))
        && session.biometricData == old(session.biometricData) && session.vote == old(session.vote)
        && session.privacyCheck == old(session.privacyCheck)
        && session.storage.items == Session.Saved(old(session.storage.items), Session.VoterDataField,
             VoterDataValue(VerifiedVoter(aadharNumber, panNumber, voterIdNumber, Some(phoneNumber))))
      ensures otp != OtpCode ==>
        && error == InvalidOtpError && navigatedTo == old(navigatedTo)
        && unchanged(session) && unchanged(session.storage)
    {
      error := "";
      isLoading := true;
      if otp == OtpCode {
        session.SetVoterData(VerifiedVoter(aadharNumber, panNumber, voterIdNumber, Some(phoneNumber)));
        navigatedTo := Some(BiometricScanRoute);
      } else {
        error := InvalidOtpError;
      }
      isLoading := false;
    }

    /** The "Send OTP" button, drawn only on the OTP step; the alert that follows a send is not modelled. */
    method SendOtp()
      requires Valid() && step == Otp
      modifies this
      ensures Valid() && step == old(step) && verificationStatus == old(verificationStatus)
      ensures navigatedTo == old(navigatedTo) && phoneNumber == old(phoneNumber) && otp == old(otp)
      ensures aadharNumber == old(aadharNumber) && panNumber == old(panNumber) && voterIdNumber == old(voterIdNumber)
      ensures phoneNumber == "" ==> error == MissingPhoneError
      ensures phoneNumber != "" ==> error == ""
    {
      if phoneNumber == "" {
        error := MissingPhoneError;
        return;
      }
      isLoading := true;
      error := "";
      isLoading := false;
    }

    method GoBack()
      requires Valid()
      modifies this
      ensures Valid() && verificationStatus == old(verificationStatus) && error == old(error)
      ensures old(step) == Otp ==> step == Verification && navigatedTo == old(navigatedTo)
      ensures old(step) == Verification ==> step == Verification && navigatedTo == Some(Home)
      ensures aadharNumber == old(aadharNumber) && panNumber == old(panNumber) && voterIdNumber == old(voterIdNumber)
      ensures phoneNumber == old(phoneNumber) && otp == old(otp)
    {
      if step == Otp {
        step := Verification;
      } else {
        navigatedTo := Some(Home);
      }
    }
  }
}
