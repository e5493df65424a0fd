/**
 * `AuthProvider`: the signed-in user (or none), mirrored into `localStorage`
 * under the key `user` by an effect that writes it when present and removes
 * the key when absent.
 */
module AuthContext {
  import opened Wrappers
  import opened Users
  import opened Storage

  const UserKey := "user"

  /** The lazy initial state: the stored user, or none when nothing (usable) is stored. */
  function LoadUser(entries: map<string, Stored>): (r: Option<User>)
    ensures r.Some? <==> UserKey in entries && entries[UserKey].UserEntry?
    ensures r.Some? ==> entries[UserKey] == UserEntry(r.value)
  {
    if UserKey in entries && entries[UserKey].UserEntry? then Some(entries[UserKey].user) else None
  }

  /** The storage as the sync effect leaves it for a given user slot; other keys are untouched. */
  function SyncedEntries(entries: map<string, Stored>, user: Option<User>): (r: map<string, Stored>)
    ensures user.Some? ==> UserKey in r && r[UserKey] == UserEntry(user.value)
    ensures user.None? ==> UserKey !in r
    ensures forall k :: k != UserKey ==> (k in r <==> k in entries)
    ensures forall k :: k != UserKey && k in r ==> r[k] == entries[k]
  {
    match user
    case Some(u) => entries[UserKey := UserEntry(u)]
    case None => entries - {UserKey}
  }

  /** After the sync effect, a page reload restores exactly the same session (or the same absence of one). */
  lemma ReloadRestoresSession(entries: map<string, Stored>, user: Option<User>)
    ensures LoadUser(SyncedEntries(entries, user)) == user
  {
  }

  /** Loading and syncing again changes nothing: mounting twice is the same as mounting once. */
  lemma SyncIdempotent(entries: map<string, Stored>)
    ensures SyncedEntries(SyncedEntries(entries, LoadUser(entries)), LoadUser(entries))
            == SyncedEntries(entries, LoadUser(entries))
    ensures LoadUser(SyncedEntries(entries, LoadUser(entries))) == LoadUser(entries)
  {
    var once := SyncedEntries(entries, LoadUser(entries));
    assert SyncedEntries(once, LoadUser(entries)).Keys == once.Keys;
  }

  class AuthProvider {
    var user: Option<User>
    const storage: LocalStorage

    /** The stored copy agrees with the slot: present and equal, or absent. */
    ghost predicate Persisted()
      reads this, storage
    {
      LoadUser(storage.entries) == user
    }

    /** `isAuthenticated`: `!!user`, true exactly when a user is signed in (a user record is never falsy). */
    function IsAuthenticated(): (r: bool)
      reads this
      ensures r <==> user != None
    {
      user.Some?
    }

    /** Mounting: load the stored user, then the sync effect runs once. */
    constructor (store: LocalStorage)
      modifies store
      ensures storage == store
      ensures user == LoadUser(old(store.entries))
      ensures store.entries == SyncedEntries(old(store.entries), user)
      ensures Persisted()
    {
      storage := store;
      user := LoadUser(store.entries);
      new;
      SyncStorage();
    }

    /** The effect on `[user]`: write the user when there is one, remove the key otherwise. */
    method SyncStorage()
      modifies storage
      ensures storage.entries == SyncedEntries(old(storage.entries), user)
      ensures Persisted()
    {
      if user.Some? {
        storage.SetItem(UserKey, UserEntry(user.value));
      } else {
        storage.RemoveItem(UserKey);
      }
    }

    /** `login` once its timer fires: the mock user is signed in and stored; the promise resolves to true. */
    method Login(email: string, password: string, now: nat) returns (ok: bool)
      modifies this, storage
      ensures ok
      ensures user == Some(LoginUser(email, password, now))
      ensures storage.entries == SyncedEntries(old(storage.entries), user)
      ensures IsAuthenticated() && Persisted()
    {
      user := Some(LoginUser(email, password, now));
      SyncStorage();
      ok := true;
    }

    /** `signup` once its timer fires: the new account is signed in and stored; the promise resolves to true. */
    method Signup(email: string, password: string, firstName: string, lastName: string, now: nat) returns (ok: bool)
      modifies this, storage
      ensures ok
      ensures user == Some(SignupUser(email, password, firstName, lastName, now))
      ensures storage.entries == SyncedEntries(old(storage.entries), user)
      ensures IsAuthenticated() && Persisted()
    {
      user := Some(SignupUser(email, password, firstName, lastName, now));
      SyncStorage();
      ok := true;
    }

    /** `logout`: the slot is emptied and the stored user removed. */
    method Logout()
      modifies this, storage
      ensures user == None
      ensures storage.entries == old(storage.entries) - {UserKey}
      ensures !IsAuthenticated() && Persisted()
    {
      user := None;
      SyncStorage();
    }
  }
}
