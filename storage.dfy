/** The browser's local storage, shared by the three context providers, as a map from key to a parsed value. */
module Storage {
  import opened Types

  const VotingUserKey := "voting_user"
  const VotingDataKey := "voting_data"
  const LanguageKey := "voting_language"

  /** One property of the voting_data record, tagged with the kind of record it holds. */
  datatype SessionValue =
    | VoterDataValue(voterData: VoterData)
    | BiometricValue(biometricData: BiometricData)
    | VoteValue(vote: Vote)
    | PrivacyValue(privacyCheck: PrivacyCheck)

  /** What a key holds once its JSON text is parsed. */
  datatype Item =
    | UserItem(user: User)
    | SessionItem(record: map<string, SessionValue>)
    | LanguageItem(language: Language)

  class LocalStorage {
    var items: map<string, Item>

    constructor (initial: map<string, Item>)
      ensures items == initial
    {
      items := initial;
    }

    /** localStorage.getItem: the stored value, or None when the key is absent. */
    function GetItem(key: string): (r: Option<Item>)
      reads this
      ensures r.Some? <==> key in items
      ensures r.Some? ==> r.value == items[key]
    {
      if key in items then Some(items[key]) else None
    }

    /** localStorage.setItem: replaces whatever the key held. */
    method SetItem(key: string, item: Item)
      modifies this
      ensures items == old(items)[key := item]
    {
      items := items[key := item];
    }

    /** localStorage.removeItem: a missing key is not an error. */
    method RemoveItem(key: string)
      modifies this
      ensures items == old(items) - {key}
    {
      items := items - {key};
    }
  }
}
