/**
 * The voting part of the wizard run end to end over one session store: the ballot, the
 * confirmation and the receipt, in the order the router takes them.
 */
module Wizard {
  import opened Types
  import opened Storage
  import opened Candidates
  import opened MockHash
  import Session
  import VotingFlow
  import ConfirmationFlow
  import ReceiptFlow

  /** The ballot: granting the camera, choosing the i-th candidate and submitting at time `now`. */
  method CastVote(session: Session.VotingProvider, i: nat, now: Timestamp)
    requires i < |StandardCandidates|
    modifies session, session.storage
    ensures session.vote == Some(Vote(StandardCandidates[i].id, now, VotingFlow.VoteIdFor(now), false))
  {
    var ballot := new VotingFlow.VotingPage(session);
    ballot.HandlePermissionGranted();
    var id := StandardCandidates[i].id;
    assert id != "";
    ballot.HandleVoteSelection(id);
    assert VotingFlow.HasSelection(ballot.selectedCandidate);
    ballot.SubmitVote(now);
  }

  /**
   * Confirming the session's vote for the i-th ballot candidate and opening its receipt: storage
   * holds the vote confirmed and otherwise unchanged, and the receipt describes it with that
   * candidate and the hash the receipt page drew.
   */
  method ConfirmAndReceive(session: Session.VotingProvider, i: nat, confirmDraws: seq<real>, receiptDraws: seq<real>)
    returns (name: string, receipt: ReceiptFlow.ReceiptData)
    requires i < |StandardCandidates| && session.vote.Some? && session.vote.value.candidateId == StandardCandidates[i].id
    requires ValidDraws(confirmDraws) && ValidDraws(receiptDraws)
    modifies session, session.storage
    ensures session.vote == Some(old(session.vote.value).(isConfirmed := true))
    ensures Session.LoadVote(session.storage.items) == session.vote
    ensures name == ReceiptFlow.ReceiptFilename(old(session.vote.value).voteId)
    ensures receipt == ReceiptFlow.ReceiptFor(session.vote.value, Some(StandardCandidates[i]), BlockchainHash(receiptDraws))
  {
    ghost var before := session.storage.items;
    var confirmation := new ConfirmationFlow.ConfirmationPage(session);
    var _ := confirmation.ConfirmVote(confirmDraws);
    Session.ReloadAfterSetVote(before, session.vote.value);

    var page := new ReceiptFlow.ReceiptPage(session);
    page.Mount(receiptDraws);
    ReceiptFlow.ReceiptShowsBallotCandidate(session.vote.value, i);
    name, receipt := page.DownloadReceipt();
  }

  /**
   * Granting the camera, choosing the i-th candidate at time `now` and confirming stores a
   * confirmed vote for that candidate whose id is built from `now`; the receipt then names that
   * candidate, and its hash is the one drawn by the receipt page, not the one drawn on confirmation.
   */
  method CastConfirmAndReceive(session: Session.VotingProvider, i: nat, now: Timestamp,
                               confirmDraws: seq<real>, receiptDraws: seq<real>)
    returns (name: string, receipt: ReceiptFlow.ReceiptData)
    requires i < |StandardCandidates| && ValidDraws(confirmDraws) && ValidDraws(receiptDraws)
    modifies session, session.storage
    ensures session.vote == Some(Vote(StandardCandidates[i].id, now, VotingFlow.VoteIdFor(now), true))
    ensures Session.LoadVote(session.storage.items) == session.vote
    ensures name == ReceiptFlow.ReceiptFilename(VotingFlow.VoteIdFor(now))
    ensures receipt == ReceiptFlow.ReceiptFor(session.vote.value, Some(StandardCandidates[i]), BlockchainHash(receiptDraws))
  {
    CastVote(session, i, now);
    name, receipt := ConfirmAndReceive(session, i, confirmDraws, receiptDraws);
  }
}
