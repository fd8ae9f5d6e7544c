/**
 * The mock candidate lists. VotingPage and ReceiptPage carry the same four candidates;
 * ConfirmationPage carries its own list, which disagrees with theirs.
 */
module Candidates {
  import opened Types

  /** The list of VotingPage and ReceiptPage. */
  const StandardCandidates: seq<Candidate> := [
    Candidate("1", "Dr. Rajesh Kumar", "Progressive Democratic Party", "🌟"),
    Candidate("2", "Ms. Priya Sharma", "United People's Alliance", "🌺"),
    Candidate("3", "Mr. Arjun Singh", "National Development Front", "🦅"),
    Candidate("4", "Dr. Meera Patel", "Social Justice Movement", "🌱")
  ]

  /** The list of ConfirmationPage. */
  const ConfirmationCandidates: seq<Candidate> := [
    Candidate("1", "Dr. Rajesh Kumar", "Bharatiya Log Democratic Party", "🪷"),
    Candidate("2", "Mr. Donald Thompson", "Repulican Unity Front", "🐘"),
    Candidate("3", "Mr. Narendra Singh", "National Communist Front", "🔴"),
    Candidate("4", "Dr. Meera Patel", "Social Congress Alliance", "🖐️")
  ]

  /** `list.find(c => c.id === id)`: the first candidate with that id, or none. */
  function FindCandidate(list: seq<Candidate>, id: string): (r: Option<Candidate>)
    ensures r.Some? ==> r.value in list && r.value.id == id
    ensures r.None? <==> forall c :: c in list ==> c.id != id
  {
    if list == [] then None
    else if list[0].id == id then Some(list[0])
    else FindCandidate(list[1..], id)
  }

  /** A candidate whose id no earlier entry has is the one found for that id. */
  lemma {:induction false} FindFirstWithId(list: seq<Candidate>, i: nat)
    requires i < |list|
    requires forall j :: 0 <= j < i ==> list[j].id != list[i].id
    ensures FindCandidate(list, list[i].id) == Some(list[i])
  {
    if i > 0 {
      FindFirstWithId(list[1..], i - 1);
    }
  }

  /** The ids "1" to "4" are distinct, so a lookup by any of them finds that candidate. */
  lemma StandardIdsDistinct()
    ensures forall i, j :: 0 <= i < j < |StandardCandidates| ==> StandardCandidates[i].id != StandardCandidates[j].id
    ensures forall i :: 0 <= i < |StandardCandidates| ==> FindCandidate(StandardCandidates, StandardCandidates[i].id) == Some(StandardCandidates[i])
  {
    forall i | 0 <= i < |StandardCandidates|
      ensures FindCandidate(StandardCandidates, StandardCandidates[i].id) == Some(StandardCandidates[i])
    {
      FindFirstWithId(StandardCandidates, i);
    }
  }

  /** For the same id the confirmation list shows another party, and for "2" and "3" another name. */
  lemma ConfirmationDisagrees(id: string)
    requires id == "1" || id == "2" || id == "3" || id == "4"
    ensures FindCandidate(StandardCandidates, id).Some? && FindCandidate(ConfirmationCandidates, id).Some?
    ensures FindCandidate(StandardCandidates, id).value.party != FindCandidate(ConfirmationCandidates, id).value.party
    ensures (id == "2" || id == "3") <==>
      FindCandidate(StandardCandidates, id).value.name != FindCandidate(ConfirmationCandidates, id).value.name
  {
    var i := if id == "1" then 0 else if id == "2" then 1 else if id == "3" then 2 else 3;
    assert StandardCandidates[i].id == id && ConfirmationCandidates[i].id == id;
    FindFirstWithId(StandardCandidates, i);
    FindFirstWithId(ConfirmationCandidates, i);
  }
}
