/**
 * The session store (VotingContext): four optional records held in memory and mirrored, one property
 * at a time, into the persisted `voting_data` record. The store validates nothing and imposes no order.
 */
module Session {
  import opened Types
  import opened Storage

  const VoterDataField := "voterData"
  const BiometricDataField := "biometricData"
  const VoteField := "vote"
  const PrivacyCheckField := "privacyCheck"

  /** The parsed `voting_data` record, or the empty record `{}` when the key is absent. */
  function SavedRecord(items: map<string, Item>): map<string, SessionValue> {
    if VotingDataKey in items && items[VotingDataKey].SessionItem? then items[VotingDataKey].record else map[]
  }

  /** `{ ...current, [field]: value }`. */
  function Merge(current: map<string, SessionValue>, field: string, value: SessionValue): (r: map<string, SessionValue>)
    ensures r.Keys == current.Keys + {field}
    ensures r[field] == value
    ensures forall k :: k in current && k != field ==> r[k] == current[k]
  {
    current[field := value]
  }

  /** The storage after saveToLocalStorage({ [field]: value }). */
  function Saved(items: map<string, Item>, field: string, value: SessionValue): map<string, Item> {
    items[VotingDataKey := SessionItem(Merge(SavedRecord(items), field, value))]
  }

  /** `JSON.parse(saved)[field] || null`, or null when nothing is saved. */
  function SavedField(items: map<string, Item>, field: string): Option<SessionValue> {
    var record := SavedRecord(items);
    if field in record then Some(record[field]) else None
  }

  function LoadVoterData(items: map<string, Item>): Option<VoterData> {
    match SavedField(items, VoterDataField)
    case Some(VoterDataValue(d)) => Some(d)
    case _ => None
  }

  function LoadBiometricData(items: map<string, Item>): Option<BiometricData> {
    match SavedField(items, BiometricDataField)
    case Some(BiometricValue(d)) => Some(d)
    case _ => None
  }

  function LoadVote(items: map<string, Item>): Option<Vote> {
    match SavedField(items, VoteField)
    case Some(VoteValue(v)) => Some(v)
    case _ => None
  }

  function LoadPrivacyCheck(items: map<string, Item>): Option<PrivacyCheck> {
    match SavedField(items, PrivacyCheckField)
    case Some(PrivacyValue(c)) => Some(c)
    case _ => None
  }

  /** Saving one property writes only `voting_data`; every other key of the storage keeps its value. */
  lemma SaveTouchesOnlyVotingData(items: map<string, Item>, field: string, value: SessionValue, key: string)
    requires key != VotingDataKey
    ensures key in Saved(items, field, value) <==> key in items
    ensures key in items ==> Saved(items, field, value)[key] == items[key]
  {
  }

  /** Saving merges: the written property takes the new value and every property already saved is kept. */
  lemma SaveMerges(items: map<string, Item>, field: string, value: SessionValue)
    ensures SavedField(Saved(items, field, value), field) == Some(value)
    ensures forall f :: f != field ==> SavedField(Saved(items, field, value), f) == SavedField(items, f)
  {
  }

  /** Saving the same property twice leaves the storage as saving it once. */
  lemma SaveIdempotent(items: map<string, Item>, field: string, value: SessionValue)
    ensures Saved(Saved(items, field, value), field, value) == Saved(items, field, value)
  {
    var once := Saved(items, field, value);
    assert SavedRecord(once) == Merge(SavedRecord(items), field, value);
    assert Merge(SavedRecord(once), field, value) == SavedRecord(once);
  }

  /** With no `voting_data` key every field initialises to null. */
  lemma NothingSavedLoadsNothing(items: map<string, Item>)
    requires VotingDataKey !in items
    ensures LoadVoterData(items) == None && LoadBiometricData(items) == None
    ensures LoadVote(items) == None && LoadPrivacyCheck(items) == None
  {
  }

  /** After setVoterData(d) a freshly initialised provider reads `d`, and the other three fields as before. */
  lemma ReloadAfterSetVoterData(items: map<string, Item>, d: VoterData)
    ensures var items' := Saved(items, VoterDataField, VoterDataValue(d));
      && LoadVoterData(items') == Some(d)
      && LoadBiometricData(items') == LoadBiometricData(items)
      && LoadVote(items') == LoadVote(items)
      && LoadPrivacyCheck(items') == LoadPrivacyCheck(items)
  {
    SaveMerges(items, VoterDataField, VoterDataValue(d));
  }

  lemma ReloadAfterSetBiometricData(items: map<string, Item>, d: BiometricData)
    ensures var items' := Saved(items, BiometricDataField, BiometricValue(d));
      && LoadBiometricData(items') == Some(d)
      && LoadVoterData(items') == LoadVoterData(items)
      && LoadVote(items') == LoadVote(items)
      && LoadPrivacyCheck(items') == LoadPrivacyCheck(items)
  {
    SaveMerges(items, BiometricDataField, BiometricValue(d));
  }

  lemma ReloadAfterSetVote(items: map<string, Item>, v: Vote)
    ensures var items' := Saved(items, VoteField, VoteValue(v));
      && LoadVote(items') == Some(v)
      && LoadVoterData(items') == LoadVoterData(items)
      && LoadBiometricData(items') == LoadBiometricData(items)
      && LoadPrivacyCheck(items') == LoadPrivacyCheck(items)
  {
    SaveMerges(items, VoteField, VoteValue(v));
  }

  lemma ReloadAfterSetPrivacyCheck(items: map<string, Item>, c: PrivacyCheck)
    ensures var items' := Saved(items, PrivacyCheckField, PrivacyValue(c));
      && LoadPrivacyCheck(items') == Some(c)
      && LoadVoterData(items') == LoadVoterData(items)
      && LoadBiometricData(items') == LoadBiometricData(items)
      && LoadVote(items') == LoadVote(items)
  {
    SaveMerges(items, PrivacyCheckField, PrivacyValue(c));
  }

  class VotingProvider {
    var voterData: Option<VoterData>
    var biometricData: Option<BiometricData>
    var vote: Option<Vote>
    var privacyCheck: Option<PrivacyCheck>
    const storage: LocalStorage

    /** The in-memory fields are what a freshly initialised provider would read from storage. */
    ghost predicate Synced()
      reads this, storage
    {
      && voterData == LoadVoterData(storage.items)
      && biometricData == LoadBiometricData(storage.items)
      && vote == LoadVote(storage.items)
      && privacyCheck == LoadPrivacyCheck(storage.items)
    }

    /** VotingProvider's initial state: each field read from `voting_data`, null when absent. */
    constructor (storage: LocalStorage)
      ensures this.storage == storage && Synced()
    {
      this.storage := storage;
      voterData := LoadVoterData(storage.items);
      biometricData := LoadBiometricData(storage.items);
      vote := LoadVote(storage.items);
      privacyCheck := LoadPrivacyCheck(storage.items);
    }

    method SaveToLocalStorage(field: string, value: SessionValue)
      modifies storage
      ensures storage.items == Saved(old(storage.items), field, value)
    {
      var current := SavedRecord(storage.items);
      storage.SetItem(VotingDataKey, SessionItem(Merge(current, field, value)));
    }

    method SetVoterData(data: VoterData)
      modifies this, storage
      ensures voterData == Some(data)
      ensures biometricData == old(biometricData) && vote == old(vote) && privacyCheck == old(privacyCheck)
      ensures storage.items == Saved(old(storage.items), VoterDataField, VoterDataValue(data))
      ensures old(Synced()) ==> Synced()
    {
      voterData := Some(data);
      SaveToLocalStorage(VoterDataField, VoterDataValue(data));
      ReloadAfterSetVoterData(old(storage.items), data);
    }

    method SetBiometricData(data: BiometricData)
      modifies this, storage
      ensures biometricData == Some(data)
      ensures voterData == old(voterData) && vote == old(vote) && privacyCheck == old(privacyCheck)
      ensures storage.items == Saved(old(storage.items), BiometricDataField, BiometricValue(data))
      ensures old(Synced()) ==> Synced()
    {
      biometricData := Some(data);
      SaveToLocalStorage(BiometricDataField, BiometricValue(data));
      ReloadAfterSetBiometricData(old(storage.items), data);
    }

    method SetVote(voteData: Vote)
      modifies this, storage
      ensures vote == Some(voteData)
      ensures voterData == old(voterData) && biometricData == old(biometricData) && privacyCheck == old(privacyCheck)
      ensures storage.items == Saved(old(storage.items), VoteField, VoteValue(voteData))
      ensures old(Synced()) ==> Synced()
    {
      vote := Some(voteData);
      SaveToLocalStorage(VoteField, VoteValue(voteData));
      ReloadAfterSetVote(old(storage.items), voteData);
    }

    method SetPrivacyCheck(check: PrivacyCheck)
      modifies this, storage
      ensures privacyCheck == Some(check)
      ensures voterData == old(voterData) && biometricData == old(biometricData) && vote == old(vote)
      ensures storage.items == Saved(old(storage.items), PrivacyCheckField, PrivacyValue(check))
      ensures old(Synced()) ==> Synced()
    {
      privacyCheck := Some(check);
      SaveToLocalStorage(PrivacyCheckField, PrivacyValue(check));
      ReloadAfterSetPrivacyCheck(old(storage.items), check);
    }

    method ResetVotingData()
      modifies this, storage
      ensures voterData == None && biometricData == None && vote == None && privacyCheck == None
      ensures storage.items == old(storage.items) - {VotingDataKey}
      ensures Synced()
    {
      voterData, biometricData, vote, privacyCheck := None, None, None, None;
      storage.RemoveItem(VotingDataKey);
      NothingSavedLoadsNothing(storage.items);
    }
  }
}
