/**
 * The voting page (src/VotingPage): camera permission, an always-passing privacy check, candidate
 * selection, and the vote submission that stores an unconfirmed vote with an id built from the clock.
 */
module VotingFlow {
  import opened Types
  import opened Storage
  import opened Decimal
  import opened Candidates
  import Session

  datatype VotingStep = PermissionRequest | PrivacyCheckStep | Voting | VoteCast

  const VerifiedPrivacy := PrivacyCheck(true, true, true)

  /** `if (!selectedCandidate) return`: both null and the empty string count as no selection. */
  predicate HasSelection(selected: Option<string>) {
    selected.Some? && selected.value != ""
  }

  /** `s.slice(-8)`: the last eight characters, or all of a shorter string. */
  function LastEight(s: string): (r: string)
    ensures |r| == if |s| < 8 then |s| else 8
    ensures r == s[|s| - |r|..]
  {
    if |s| <= 8 then s else s[|s| - 8..]
  }

  /** `VT${Date.now().toString().slice(-8)}`. */
  function VoteIdFor(now: Timestamp): (id: string)
    ensures 3 <= |id| <= 10 && id[..2] == "VT"
    ensures AllDigits(id[2..])
  {
    "VT" + LastEight(DecimalString(now))
  }

  /** The digits after "VT" denote the timestamp modulo 10^8, so ids repeat only for timestamps 10^8 ms apart. */
  lemma VoteIdEncodesTimestamp(now: Timestamp)
    ensures DecimalValue(VoteIdFor(now)[2..]) == now % 100000000
  {
    var s := DecimalString(now);
    var tail := LastEight(s);
    assert VoteIdFor(now)[2..] == tail;
    DecimalRoundTrip(now);
    SuffixValue(s, |tail|);
    if |s| < 8 {
      ValueBelowPow10(s);
      Pow10Monotone(|s|, 8);
      assert tail == s;
      assert Pow10(8) == 100000000;
    } else {
      assert Pow10(8) == 100000000;
    }
  }

  /** From 10^7 ms after the epoch on (every current clock), the id is "VT" and exactly eight digits. */
  lemma VoteIdHasEightDigits(now: Timestamp)
    requires now >= 10000000
    ensures |VoteIdFor(now)| == 10
  {
    assert Pow10(7) == 10000000;
    DecimalStringLength(now, 7);
  }

  class VotingPage {
    var currentStep: VotingStep
    var privacyVerified: bool
    var selectedCandidate: Option<string>
    var permissionDenied: bool
    var navigatedTo: Option<Route>
    const session: Session.VotingProvider

    /** Before permission nothing has happened; the ballot and beyond are reached only through a passed privacy check. */
    ghost predicate Valid()
      reads this
    {
      && (currentStep == PermissionRequest ==> !permissionDenied && !privacyVerified)
      && (currentStep in {Voting, VoteCast} ==> privacyVerified)
    }

    constructor (session: Session.VotingProvider)
      ensures Valid() && this.session == session
      ensures currentStep == PermissionRequest && !privacyVerified && selectedCandidate == None
      ensures !permissionDenied && navigatedTo == None
    {
      this.session := session;
      currentStep := PermissionRequest;
      privacyVerified := false;
      selectedCandidate := None;
      permissionDenied := false;
      navigatedTo := None;
    }

    /** startPrivacyCheck after its delays: it always passes, records that, and opens the ballot. */
    method StartPrivacyCheck()
      modifies this, session, session.storage
      ensures Valid() && privacyVerified && currentStep == Voting
      ensures selectedCandidate == old(selectedCandidate) && permissionDenied == old(permissionDenied)
      ensures navigatedTo == old(navigatedTo)
      ensures session.privacyCheck == Some(VerifiedPrivacy)
      ensures session.voterData == old(session.voterData) && session.biometricData == old(session.biometricData)
      ensures session.vote == old(session.vote)
      ensures session.storage.items == Session.Saved(old(session.storage.items), Session.PrivacyCheckField, PrivacyValue(VerifiedPrivacy))
    {
      privacyVerified := true;
      session.SetPrivacyCheck(VerifiedPrivacy);
      currentStep := Voting;
    }

    /**
     * The permission modal's "allow". The handler starts the privacy check, and so does the effect
     * that watches the step entering 'privacy-check': the check runs twice, which stores what one run does.
     */
    method HandlePermissionGranted()
      requires Valid() && currentStep == PermissionRequest
      modifies this, session, session.storage
      ensures Valid() && privacyVerified && currentStep == Voting && !permissionDenied
      ensures selectedCandidate == old(selectedCandidate) && navigatedTo == old(navigatedTo)
      ensures session.privacyCheck == Some(VerifiedPrivacy)
      ensures session.voterData == old(session.voterData) && session.biometricData == old(session.biometricData)
      ensures session.vote == old(session.vote)
      ensures session.storage.items == Session.Saved(old(session.storage.items), Session.PrivacyCheckField, PrivacyValue(VerifiedPrivacy))
    {
      currentStep := PrivacyCheckStep;
      StartPrivacyCheck();
      StartPrivacyCheck();
      Session.SaveIdempotent(old(session.storage.items), Session.PrivacyCheckField, PrivacyValue(VerifiedPrivacy));
    }

    /**
     * The permission modal's "deny": the page shows the denial, but the step still enters
     * 'privacy-check', so the effect runs the check, a verified privacy record is stored anyway,
     * and the page reaches the voting step with the ballot hidden behind the denial notice.
     */
    method HandlePermissionDenied()
      requires Valid() && currentStep == PermissionRequest
      modifies this, session, session.storage
      ensures Valid() && permissionDenied && privacyVerified && currentStep == Voting
      ensures selectedCandidate == old(selectedCandidate) && navigatedTo == old(navigatedTo)
      ensures session.privacyCheck == Some(VerifiedPrivacy)
      ensures session.voterData == old(session.voterData) && session.biometricData == old(session.biometricData)
      ensures session.vote == old(session.vote)
      ensures session.storage.items == Session.Saved(old(session.storage.items), Session.PrivacyCheckField, PrivacyValue(VerifiedPrivacy))
    {
      permissionDenied := true;
      currentStep := PrivacyCheckStep;
      StartPrivacyCheck();
    }

    /** Clicking a candidate card on the ballot, which is shown only without a denial: the new selection replaces any earlier one. */
    method HandleVoteSelection(candidateId: string)
      requires Valid() && currentStep == Voting && !permissionDenied
      modifies this
      ensures Valid() && selectedCandidate == Some(candidateId)
      ensures currentStep == old(currentStep) && privacyVerified == old(privacyVerified)
      ensures permissionDenied == old(permissionDenied) && navigatedTo == old(navigatedTo)
    {
      selectedCandidate := Some(candidateId);
    }

    /** Submitting the ballot (shown only without a denial) with the clock at `now`: nothing happens without a selection. */
    method SubmitVote(now: Timestamp)
      requires Valid() && currentStep == Voting && !permissionDenied
      modifies this, session, session.storage
      ensures Valid()
      ensures !HasSelection(old(selectedCandidate)) ==> unchanged(this) && unchanged(session) && unchanged(session.storage)
      ensures HasSelection(old(selectedCandidate)) ==>
        session.vote == Some(Vote(old(selectedCandidate).value, now, VoteIdFor(now), false))
      ensures HasSelection(old(selectedCandidate)) ==>
        && session.voterData == old(session.voterData) && session.biometricData == old(session.biometricData)
        && session.privacyCheck == old(session.privacyCheck)
      ensures HasSelection(old(selectedCandidate)) ==>
        session.storage.items == Session.Saved(old(session.storage.items), Session.VoteField,
          VoteValue(Vote(old(selectedCandidate).value, now, VoteIdFor(now), false)))
      ensures HasSelection(old(selectedCandidate)) ==>
        && currentStep == VoteCast && navigatedTo == Some(ConfirmationRoute)
        && selectedCandidate == old(selectedCandidate)
        && privacyVerified == old(privacyVerified) && permissionDenied == old(permissionDenied)
    {
      if !HasSelection(selectedCandidate) {
        return;
      }
      var cast := Vote(selectedCandidate.value, now, VoteIdFor(now), false);
      session.SetVote(cast);
      currentStep := VoteCast;
      navigatedTo := Some(ConfirmationRoute);
    }

    /** Back is disabled while the permission modal is up and once the vote is cast. */
    method GoBack()
      requires Valid() && currentStep != PermissionRequest && currentStep != VoteCast
      modifies this
      ensures Valid() && navigatedTo == Some(BiometricScanRoute) && currentStep == old(currentStep)
      ensures privacyVerified == old(privacyVerified) && selectedCandidate == old(selectedCandidate)
      ensures permissionDenied == old(permissionDenied)
    {
      navigatedTo := Some(BiometricScanRoute);
    }
  }
}
