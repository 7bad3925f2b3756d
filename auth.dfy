/**
 * The session store of `AuthProvider`: the logged-in `user` and a `loading`
 * flag, kept beside the browser's key/value storage, where the user is saved
 * under one key. Serialisation is abstract: storage holds either the
 * serialisation of a user or text that does not parse as one.
 */
module Auth {
  import opened Wrappers

  /** The storage key under which the session is saved. */
  const StorageKey := "khet-mitra_user"

  const MissingProviderMessage := "useAuth must be used within an AuthProvider"

  datatype User = User(name: string, aadhaar: string, photo: Option<string>, location: Option<string>)

  /** A stored value: `JSON.stringify(user)`, or text on which `JSON.parse` fails. */
  datatype Stored = Serialized(user: User) | Unparsable(raw: string)

  type Storage = map<string, Stored>

  /** `value || ''` for an optional string: absent and empty both become `''`. */
  function OrEmpty(value: Option<string>): (r: string)
    ensures value.Some? ==> r == value.value
    ensures value.None? ==> r == ""
  {
    value.GetOr("")
  }

  /** A user whose photo and location are present. */
  predicate Complete(u: User) {
    u.photo.Some? && u.location.Some?
  }

  /** The record `login` stores: an absent photo or location becomes `''`, everything else is copied. */
  function WithDefaults(u: User): (r: User)
    ensures r.name == u.name && r.aadhaar == u.aadhaar
    ensures Complete(r)
    ensures u.photo.None? ==> r.photo == Some("")
    ensures u.photo.Some? ==> r.photo == u.photo
    ensures u.location.None? ==> r.location == Some("")
    ensures u.location.Some? ==> r.location == u.location
    ensures Complete(u) ==> r == u
  {
    u.(photo := Some(OrEmpty(u.photo)), location := Some(OrEmpty(u.location)))
  }

  /** The user the initial-load effect reads from storage: a parsable value under the key, else none. */
  function StoredUser(storage: Storage): Option<User> {
    if StorageKey in storage && storage[StorageKey].Serialized? then Some(storage[StorageKey].user) else None
  }

  /** Storage after the initial-load effect: a non-empty value that fails to parse is removed. */
  function AfterLoad(storage: Storage): (r: Storage)
    ensures StoredUser(r) == StoredUser(storage)
    ensures r.Keys <= storage.Keys
    ensures forall k :: k in r ==> r[k] == storage[k]
    ensures forall k :: k in storage && k != StorageKey ==> k in r
    ensures StorageKey in storage ==>
              (StorageKey !in r <==> storage[StorageKey].Unparsable? && storage[StorageKey].raw != "")
  {
    if StorageKey in storage && storage[StorageKey].Unparsable? && storage[StorageKey].raw != ""
    then storage - {StorageKey}
    else storage
  }

  /** Loading twice changes nothing more than loading once. */
  lemma AfterLoadIdempotent(storage: Storage)
    ensures AfterLoad(AfterLoad(storage)) == AfterLoad(storage)
  {
  }

  /** After the initial load, storage holds a parsable user or nothing truthy under the key. */
  lemma AfterLoadLeavesNoGarbage(storage: Storage)
    ensures var r := AfterLoad(storage);
            StorageKey in r && r[StorageKey].Unparsable? ==> r[StorageKey].raw == ""
  {
  }

  class AuthProvider {
    var user: Option<User>
    var loading: bool
    var storage: Storage

    /** Storage mirrors the session: once loaded, reading storage again gives `user` back. */
    ghost predicate Valid()
      reads this
    {
      !loading ==> user == StoredUser(storage)
    }

    /** The provider mounts with no user and `loading` true; storage is whatever the browser holds. */
    constructor (initial: Storage)
      ensures user == None && loading && storage == initial
    {
      user := None;
      loading := true;
      storage := initial;
    }

    /** The mount effect: read the key, drop it if it does not parse, then clear `loading`. */
    method InitialLoad()
      modifies this
      ensures user == (if StoredUser(old(storage)).Some? then StoredUser(old(storage)) else old(user))
      ensures storage == AfterLoad(old(storage))
      ensures !loading
      ensures old(user) == None ==> Valid()
    {
      if StorageKey in storage {
        var stored := storage[StorageKey];
        match stored
        case Serialized(u) =>
          user := Some(u);
        case Unparsable(raw) =>
          if raw != "" {
            storage := storage - {StorageKey};
          }
      }
      loading := false;
    }

    method Login(u: User)
      modifies this
      ensures user == Some(WithDefaults(u))
      ensures storage == old(storage)[StorageKey := Serialized(WithDefaults(u))]
      ensures loading == old(loading)
      ensures Valid()
    {
      var withDefaults := WithDefaults(u);
      user := Some(withDefaults);
      storage := storage[StorageKey := Serialized(withDefaults)];
    }

    method Logout()
      modifies this
      ensures user == None
      ensures storage == old(storage) - {StorageKey}
      ensures loading == old(loading)
      ensures Valid()
    {
      user := None;
      storage := storage - {StorageKey};
    }

    method UpdateProfilePhoto(photo: string)
      modifies this
      ensures old(user).None? ==> user == old(user) && storage == old(storage)
      ensures old(user).Some? ==>
                && user == Some(old(user).value.(photo := Some(photo)))
                && storage == old(storage)[StorageKey := Serialized(user.value)]
      ensures loading == old(loading)
      ensures old(Valid()) || old(user).Some? ==> Valid()
    {
      if user.Some? {
        var updated := user.value.(photo := Some(photo));
        user := Some(updated);
        storage := storage[StorageKey := Serialized(updated)];
      }
    }

    method UpdateUserLocation(location: string)
      modifies this
      ensures old(user).None? ==> user == old(user) && storage == old(storage)
      ensures old(user).Some? ==>
                && user == Some(old(user).value.(location := Some(location)))
                && storage == old(storage)[StorageKey := Serialized(user.value)]
      ensures loading == old(loading)
      ensures old(Valid()) || old(user).Some? ==> Valid()
    {
      if user.Some? {
        var updated := user.value.(location := Some(location));
        user := Some(updated);
        storage := storage[StorageKey := Serialized(updated)];
      }
    }
  }

  /** `useAuth()`: the provider's value, or the error thrown outside a provider. */
  function UseAuth(context: Option<AuthProvider>): (r: Result<AuthProvider>)
    ensures r.Ok? <==> context.Some?
    ensures r.Ok? ==> r.value == context.value
    ensures r.Err? ==> r.message == MissingProviderMessage
  {
    match context
    case Some(provider) => Ok(provider)
    case None => Err(MissingProviderMessage)
  }
}
