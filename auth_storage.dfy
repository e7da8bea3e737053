/**
 * The browser's `localStorage` as the credential flow uses it: one slot,
 * under the key "authHash", holding the last issued hash
 * (`storeAuthHash` and `validateAuthHash` in src/lib/auth/utils.js).
 *
 * `access` says whether the storage can be used at all; when it cannot,
 * every call throws with the given message (a browser that blocks storage).
 */
module AuthStorage {
  import opened Wrappers

  const AuthHashKey: string := "authHash"

  datatype Access = Available | Throws(message: string)

  /** `localStorage.getItem("authHash")`: the stored hash, or `null`. */
  function Slot(items: map<string, string>): (r: Option<string>)
    ensures r.Some? <==> AuthHashKey in items
    ensures r.Some? ==> r.value == items[AuthHashKey]
  {
    if AuthHashKey in items then Some(items[AuthHashKey]) else None
  }

  /** The storage after `storeAuthHash(hash)`: the slot overwritten unconditionally. */
  function Stored(items: map<string, string>, hash: string): map<string, string> {
    items[AuthHashKey := hash]
  }

  /** `hash === localStorage.getItem("authHash")`: a string never equals `null`. */
  predicate Matches(items: map<string, string>, hash: string) {
    Slot(items) == Some(hash)
  }

  /** After storing `h`, exactly `h` is accepted. */
  lemma StoreThenValidate(items: map<string, string>, h: string, g: string)
    ensures Matches(Stored(items, h), g) <==> g == h
  {
  }

  /** The last store wins. */
  lemma LastStoreWins(items: map<string, string>, h1: string, h2: string)
    ensures Stored(Stored(items, h1), h2) == Stored(items, h2)
    ensures Slot(Stored(Stored(items, h1), h2)) == Some(h2)
  {
  }

  /** Storing touches no other key. */
  lemma StoreKeepsOtherKeys(items: map<string, string>, h: string, key: string)
    requires key != AuthHashKey
    ensures key in Stored(items, h) <==> key in items
    ensures key in items ==> Stored(items, h)[key] == items[key]
  {
  }

  /** With an empty slot every string is rejected. */
  lemma EmptySlotRejectsAll(items: map<string, string>, g: string)
    requires AuthHashKey !in items
    ensures !Matches(items, g)
  {
  }

  class LocalStorage {
    var items: map<string, string>
    var access: Access

    constructor (items: map<string, string>, access: Access)
      ensures this.items == items && this.access == access
    {
      this.items := items;
      this.access := access;
    }

    /** `localStorage.setItem(key, value)`; `thrown` is the exception, if any. */
    method SetItem(key: string, value: string) returns (thrown: Option<string>)
      modifies this
      ensures access == old(access)
      ensures access.Available? ==> items == old(items)[key := value] && thrown == None
      ensures access.Throws? ==> items == old(items) && thrown == Some(access.message)
    {
      match access
      case Available =>
        items := items[key := value];
        thrown := None;
      case Throws(message) =>
        thrown := Some(message);
    }

    /** `localStorage.getItem(key)`: the value, `null` (None) when absent, or the exception. */
    method GetItem(key: string) returns (r: Result<Option<string>, string>)
      ensures access.Available? ==> r == Success(if key in items then Some(items[key]) else None)
      ensures access.Throws? ==> r == Failure(access.message)
    {
      match access
      case Available =>
        r := Success(if key in items then Some(items[key]) else None);
      case Throws(message) =>
        r := Failure(message);
    }
  }

  /** utils.js `storeAuthHash`. */
  method StoreAuthHash(storage: LocalStorage, hash: string) returns (thrown: Option<string>)
    modifies storage
    ensures storage.access == old(storage.access)
    ensures storage.access.Available? ==> storage.items == Stored(old(storage.items), hash) && thrown == None
    ensures storage.access.Throws? ==> storage.items == old(storage.items) && thrown == Some(storage.access.message)
  {
    thrown := storage.SetItem(AuthHashKey, hash);
  }

  /** utils.js `validateAuthHash`: a pure read of the slot (it has no `modifies`, so the store is untouched). */
  method ValidateAuthHash(storage: LocalStorage, hash: string) returns (r: Result<bool, string>)
    ensures storage.access.Available? ==> r == Success(Matches(storage.items, hash))
    ensures storage.access.Throws? ==> r == Failure(storage.access.message)
  {
    var stored := storage.GetItem(AuthHashKey);
    match stored
    case Success(value) =>
      r := Success(value == Some(hash));
    case Failure(message) =>
      r := Failure(message);
  }
}
