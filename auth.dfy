/**
 * Demo authentication (AuthContext): a login succeeds only for one of three hardcoded username and
 * password pairs, persists the new user under `voting_user`, and logout forgets the user and the
 * persisted voting session.
 */
module Auth {
  import opened Types
  import opened Storage
  import opened Decimal
  import Session

  datatype Credential = Credential(username: string, password: string)

  const DemoCredentials: seq<Credential> := [
    Credential("admin", "admin123"),
    Credential("voter1", "vote123"),
    Credential("demo", "demo123")
  ]

  /** `creds.find(c => c.username === username && c.password === password)`. */
  function FindCredential(creds: seq<Credential>, username: string, password: string): (r: Option<Credential>)
    ensures r.Some? <==> Credential(username, password) in creds
    ensures r.Some? ==> r.value == Credential(username, password)
  {
    if creds == [] then None
    else if creds[0].username == username && creds[0].password == password then Some(creds[0])
    else FindCredential(creds[1..], username, password)
  }

  predicate IsDemoPair(username: string, password: string) {
    FindCredential(DemoCredentials, username, password).Some?
  }

  /** Exactly the three listed pairs log in; a right username with a wrong password, or the reverse, does not. */
  lemma DemoPairsExactly(username: string, password: string)
    ensures IsDemoPair(username, password) <==>
      || (username == "admin" && password == "admin123")
      || (username == "voter1" && password == "vote123")
      || (username == "demo" && password == "demo123")
  {
  }

  /** The user a fresh provider starts with: the persisted `voting_user`, otherwise null. */
  function SavedUser(items: map<string, Item>): (u: Option<User>)
    ensures VotingUserKey !in items ==> u == None
    ensures VotingUserKey in items && items[VotingUserKey].UserItem? ==> u == Some(items[VotingUserKey].user)
  {
    if VotingUserKey in items && items[VotingUserKey].UserItem? then Some(items[VotingUserKey].user) else None
  }

  class AuthProvider {
    var user: Option<User>
    const storage: LocalStorage

    constructor (storage: LocalStorage)
      ensures this.storage == storage && user == SavedUser(storage.items)
    {
      this.storage := storage;
      user := SavedUser(storage.items);
    }

    /** `now` stands for Date.now(), whose decimal text becomes the user id. */
    method Login(username: string, password: string, now: Timestamp) returns (ok: bool)
      modifies this, storage
      ensures ok <==> IsDemoPair(username, password)
      ensures ok ==> user == Some(User(DecimalString(now), username, true))
      ensures ok ==> storage.items == old(storage.items)[VotingUserKey := UserItem(User(DecimalString(now), username, true))]
      ensures !ok ==> user == old(user) && storage.items == old(storage.items)
      ensures ok ==> SavedUser(storage.items) == user
    {
      var validCredential := FindCredential(DemoCredentials, username, password);
      if validCredential.Some? {
        var newUser := User(DecimalString(now), username, true);
        user := Some(newUser);
        storage.SetItem(VotingUserKey, UserItem(newUser));
        return true;
      }
      return false;
    }

    method Logout()
      modifies this, storage
      ensures user == None
      ensures storage.items == old(storage.items) - {VotingUserKey, VotingDataKey}
    {
      user := None;
      storage.RemoveItem(VotingUserKey);
      storage.RemoveItem(VotingDataKey);
    }
  }

  /**
   * Logout shares the storage with the session store but not its memory: the store keeps its four
   * fields, while a freshly initialised store (and a fresh auth provider) would read nothing.
   */
  method LogoutKeepsSessionInMemory(auth: AuthProvider, session: Session.VotingProvider)
    requires auth.storage == session.storage
    modifies auth, auth.storage
    ensures session.voterData == old(session.voterData) && session.biometricData == old(session.biometricData)
    ensures session.vote == old(session.vote) && session.privacyCheck == old(session.privacyCheck)
    ensures Session.LoadVote(session.storage.items) == None && Session.LoadVoterData(session.storage.items) == None
    ensures Session.LoadBiometricData(session.storage.items) == None && Session.LoadPrivacyCheck(session.storage.items) == None
    ensures SavedUser(auth.storage.items) == None
    ensures session.Synced() <==>
      old(session.voterData).None? && old(session.biometricData).None? && old(session.vote).None? && old(session.privacyCheck).None?
  {
    auth.Logout();
    Session.NothingSavedLoadsNothing(session.storage.items);
  }
}
