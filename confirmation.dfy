/**
 * The confirmation page (pages/ConfirmationPage): it reviews the stored vote against its own
 * candidate list, and confirming draws a mock blockchain hash and marks the vote confirmed.
 */
module ConfirmationFlow {
  import opened Types
  import opened Storage
  import opened Candidates
  import opened MockHash
  import Session

  /** What the page shows: a redirect when there is no vote, otherwise the vote and the card found for it. */
  datatype ConfirmationView = RedirectToVoting | Review(vote: Vote, card: Option<Candidate>)

  /** The render for the session's vote; the card is looked up in the page's own list. */
  function View(vote: Option<Vote>): (v: ConfirmationView)
    ensures v.RedirectToVoting? <==> vote.None?
    ensures v.Review? ==> v.vote == vote.value
    ensures v.Review? && v.card.Some? ==> v.card.value in ConfirmationCandidates && v.card.value.id == v.vote.candidateId
    ensures v.Review? ==> (v.card.None? <==> forall c :: c in ConfirmationCandidates ==> c.id != v.vote.candidateId)
  {
    match vote
    case None => RedirectToVoting
    case Some(cast) => Review(cast, FindCandidate(ConfirmationCandidates, cast.candidateId))
  }

  /**
   * A vote cast for the i-th candidate of the ballot is reviewed under another party,
   * and for the second and third candidates under another name as well.
   */
  lemma ReviewShowsOtherCandidate(cast: Vote, i: nat)
    requires i < |StandardCandidates| && cast.candidateId == StandardCandidates[i].id
    ensures View(Some(cast)).Review? && View(Some(cast)).card.Some?
    ensures View(Some(cast)).card.value.party != StandardCandidates[i].party
    ensures View(Some(cast)).card.value.name != StandardCandidates[i].name <==> i == 1 || i == 2
  {
    StandardIdsDistinct();
    ConfirmationDisagrees(cast.candidateId);
  }

  class ConfirmationPage {
    var navigatedTo: Option<Route>
    const session: Session.VotingProvider

    constructor (session: Session.VotingProvider)
      ensures this.session == session && navigatedTo == None
    {
      this.session := session;
      navigatedTo := None;
    }

    /** Rendering: without a vote the page leaves for the voting page at once. */
    method Render() returns (view: ConfirmationView)
      modifies this
      ensures view == View(session.vote)
      ensures session.vote.None? ==> navigatedTo == Some(VotingRoute)
      ensures session.vote.Some? ==> navigatedTo == old(navigatedTo)
    {
      view := View(session.vote);
      if view.RedirectToVoting? {
        navigatedTo := Some(VotingRoute);
      }
    }

    /**
     * confirmVote after its delay: a hash is drawn (and only logged), the stored vote is marked
     * confirmed with everything else about it kept, and the page moves on to the receipt.
     */
    method ConfirmVote(draws: seq<real>) returns (hash: string)
      requires session.vote.Some? && ValidDraws(draws)
      modifies this, session, session.storage
      ensures hash == BlockchainHash(draws) && IsHashShaped(hash)
      ensures session.vote == Some(old(session.vote.value).(isConfirmed := true))
      ensures session.voterData == old(session.voterData) && session.biometricData == old(session.biometricData)
      ensures session.privacyCheck == old(session.privacyCheck)
      ensures session.storage.items ==
        Session.Saved(old(session.storage.items), Session.VoteField, VoteValue(old(session.vote.value).(isConfirmed := true)))
      ensures old(session.Synced()) ==> session.Synced()
      ensures navigatedTo == Some(ReceiptRoute)
    {
      var cast := session.vote.value;
      hash := BlockchainHash(draws);
      session.SetVote(cast.(isConfirmed := true));
      navigatedTo := Some(ReceiptRoute);
    }

    /** The Back button, drawn only when there is a vote to review. */
    method GoBack()
      requires session.vote.Some?
      modifies this
      ensures navigatedTo == Some(VotingRoute)
    {
      navigatedTo := Some(VotingRoute);
    }
  }
}
