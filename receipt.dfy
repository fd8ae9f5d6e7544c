/**
 * The receipt page (src/ReceiptPage): shown only for a confirmed vote, it draws its own mock
 * blockchain hash when mounted, offers the receipt as a JSON download, and Return Home ends the session.
 */
module ReceiptFlow {
  import opened Types
  import opened Storage
  import opened Candidates
  import opened MockHash
  import Session

  /** What the page shows: a redirect home unless the vote is confirmed, otherwise the vote and its card. */
  datatype ReceiptView = RedirectHome | Receipt(vote: Vote, card: Option<Candidate>)

  function View(vote: Option<Vote>): (v: ReceiptView)
    ensures v.RedirectHome? <==> vote.None? || !vote.value.isConfirmed
    ensures v.Receipt? ==> v.vote == vote.value
    ensures v.Receipt? && v.card.Some? ==> v.card.value in StandardCandidates && v.card.value.id == v.vote.candidateId
    ensures v.Receipt? ==> (v.card.None? <==> forall c :: c in StandardCandidates ==> c.id != v.vote.candidateId)
  {
    if vote.None? || !vote.value.isConfirmed then RedirectHome
    else Receipt(vote.value, FindCandidate(StandardCandidates, vote.value.candidateId))
  }

  /** The receipt names the very candidate the ballot showed for a confirmed vote. */
  lemma ReceiptShowsBallotCandidate(cast: Vote, i: nat)
    requires cast.isConfirmed && i < |StandardCandidates| && cast.candidateId == StandardCandidates[i].id
    ensures View(Some(cast)) == Receipt(cast, Some(StandardCandidates[i]))
  {
    FindFirstWithId(StandardCandidates, i);
  }

  /** The generateHash loop: '0x' and then one `chars[Math.floor(r * 16)]` per draw. */
  method GenerateHash(draws: seq<real>) returns (hash: string)
    requires ValidDraws(draws)
    ensures hash == BlockchainHash(draws)
  {
    hash := "0x";
    for i := 0 to HashDigits
      invariant |hash| == 2 + i && hash[..2] == "0x"
      invariant forall k :: 0 <= k < i ==> hash[2 + k] == HexChars[HexIndex(draws[k])]
    {
      hash := hash + [HexChars[HexIndex(draws[i])]];
    }
    var expected := BlockchainHash(draws);
    assert |hash| == |expected|;
    forall j | 0 <= j < |hash|
      ensures hash[j] == expected[j]
    {
      if j >= 2 {
        assert hash[2 + (j - 2)] == HexChars[HexIndex(draws[j - 2])];
      } else {
        assert hash[..2][j] == expected[..2][j];
      }
    }
  }

  /** The downloaded JSON object; the timestamp is kept as the clock value rather than its ISO text. */
  datatype ReceiptData = ReceiptData(
    voteId: string,
    candidate: Option<string>,
    party: Option<string>,
    timestamp: Timestamp,
    blockchainHash: string,
    status: string)

  const ConfirmedStatus := "Confirmed"

  /** The receipt of a vote, with the name and party of its card when there is one. */
  function ReceiptFor(cast: Vote, card: Option<Candidate>, hash: string): (r: ReceiptData)
    ensures r.voteId == cast.voteId && r.timestamp == cast.timestamp && r.blockchainHash == hash
    ensures r.status == ConfirmedStatus
    ensures r.candidate.Some? <==> card.Some?
    ensures card.Some? ==> r.candidate == Some(card.value.name) && r.party == Some(card.value.party)
    ensures card.None? ==> r.party == None
  {
    match card
    case None => ReceiptData(cast.voteId, None, None, cast.timestamp, hash, ConfirmedStatus)
    case Some(c) => ReceiptData(cast.voteId, Some(c.name), Some(c.party), cast.timestamp, hash, ConfirmedStatus)
  }

  const FilenamePrefix := "vote-receipt-"
  const FilenameSuffix := ".json"

  function ReceiptFilename(voteId: string): (name: string)
    ensures |name| == |voteId| + 18
  {
    FilenamePrefix + voteId + FilenameSuffix
  }

  /** Different votes download under different names: the vote id can be read back from the name. */
  lemma ReceiptFilenameInjective(a: string, b: string)
    ensures ReceiptFilename(a) == ReceiptFilename(b) <==> a == b
  {
    if ReceiptFilename(a) == ReceiptFilename(b) {
      var n := ReceiptFilename(a);
      assert n[13..13 + |a|] == a;
      assert ReceiptFilename(b)[13..13 + |b|] == b;
    }
  }

  class ReceiptPage {
    var blockchainHash: string
    var navigatedTo: Option<Route>
    const session: Session.VotingProvider

    constructor (session: Session.VotingProvider)
      ensures this.session == session && blockchainHash == "" && navigatedTo == None
    {
      this.session := session;
      blockchainHash := "";
      navigatedTo := None;
    }

    /**
     * The first render: without a confirmed vote the page leaves for home before its effect is
     * registered, otherwise the effect draws the hash shown on the receipt.
     */
    method Mount(draws: seq<real>)
      requires ValidDraws(draws)
      modifies this
      ensures View(session.vote).RedirectHome? ==>
        navigatedTo == Some(Home) && blockchainHash == old(blockchainHash)
      ensures View(session.vote).Receipt? ==>
        navigatedTo == old(navigatedTo) && blockchainHash == BlockchainHash(draws) && IsHashShaped(blockchainHash)
    {
      if View(session.vote).RedirectHome? {
        navigatedTo := Some(Home);
        return;
      }
      blockchainHash := GenerateHash(draws);
    }

    /** The Download button: the file name and the JSON object handed to the browser. */
    method DownloadReceipt() returns (name: string, data: ReceiptData)
      requires View(session.vote).Receipt?
      ensures name == ReceiptFilename(session.vote.value.voteId)
      ensures data == ReceiptFor(session.vote.value, View(session.vote).card, blockchainHash)
    {
      var view := View(session.vote);
      name := ReceiptFilename(view.vote.voteId);
      data := ReceiptFor(view.vote, view.card, blockchainHash);
    }

    /** Return Home: the whole voting session is cleared, in memory and in storage, and the page leaves. */
    method ReturnHome()
      requires View(session.vote).Receipt?
      modifies this, session, session.storage
      ensures session.voterData == None && session.biometricData == None
      ensures session.vote == None && session.privacyCheck == None
      ensures session.storage.items == old(session.storage.items) - {VotingDataKey}
      ensures session.Synced() && navigatedTo == Some(Home) && blockchainHash == old(blockchainHash)
    {
      session.ResetVotingData();
      navigatedTo := Some(Home);
    }
  }
}
