/** The credential store: a best-effort mirror of the session record under one
    key of the tab's `sessionStorage` (auth-storage.service.ts). No operation
    ever raises: an absent storage object, a throwing one and an unreadable
    value all degrade to "nothing stored". */
module Storage {
  import opened Common
  import opened Session

  /** `STORAGE_KEY`. */
  const StorageKey := "pet_auth_state"

  /** The browser's per-tab key-value store. `throwing` stands for a store whose
      accesses currently raise (disabled storage, quota exceeded); it is set by
      the browser, never by the client. */
  class BrowserStorage {
    var items: map<string, string>
    var throwing: bool

    constructor (items: map<string, string>, throwing: bool)
      ensures this.items == items && this.throwing == throwing
    {
      this.items := items;
      this.throwing := throwing;
    }
  }

  class AuthStorageService {
    /** `sessionStorage`, or null when touching it raised in the constructor. */
    const storage: BrowserStorage?
    /** Every record handed to `save`, in call order (instrumentation). */
    ghost var saveLog: seq<AuthState>
    /** Number of `clear` calls (instrumentation). */
    ghost var clearCount: nat

    constructor (storage: BrowserStorage?)
      ensures this.storage == storage && saveLog == [] && clearCount == 0
    {
      this.storage := storage;
      saveLog := [];
      clearCount := 0;
    }

    /** The store can be read and written right now. */
    predicate Usable()
      reads this, storage
    {
      storage != null && !storage.throwing
    }

    /** `load()`: the stored record, or None when the storage is missing or
        throws, when the key is missing or empty, or when its text does not
        parse. */
    function Load(): (r: Option<AuthState>)
      reads this, storage
      ensures r.Some? ==> Usable() && StorageKey in storage.items
      ensures r.Some? ==> Deserialize(storage.items[StorageKey]) == r
      ensures Usable() && StorageKey in storage.items && storage.items[StorageKey] != ""
              ==> r == Deserialize(storage.items[StorageKey])
    {
      if storage == null then None
      else if storage.throwing then None
      else if StorageKey !in storage.items || storage.items[StorageKey] == "" then None
      else Deserialize(storage.items[StorageKey])
    }

    /** `save(state)`: writes the serialized record under the one key; a
        throwing or missing store is left as it was. */
    method Save(state: AuthState)
      modifies storage, this`saveLog
      ensures saveLog == old(saveLog) + [state] && clearCount == old(clearCount)
      ensures storage != null ==> storage.throwing == old(storage.throwing)
      ensures storage != null && !storage.throwing ==>
                storage.items == old(storage.items)[StorageKey := Serialize(state)]
      ensures storage != null && storage.throwing ==> storage.items == old(storage.items)
      ensures Usable() ==> Load() == Some(state)
    {
      saveLog := saveLog + [state];
      if storage != null && !storage.throwing {
        storage.items := storage.items[StorageKey := Serialize(state)];
        DeserializeSerialize(state);
      }
    }

    /** `clear()`: removes the one key; a throwing or missing store is left as
        it was. */
    method Clear()
      modifies storage, this`clearCount
      ensures clearCount == old(clearCount) + 1 && saveLog == old(saveLog)
      ensures storage != null ==> storage.throwing == old(storage.throwing)
      ensures storage != null && !storage.throwing ==>
                storage.items == old(storage.items) - {StorageKey}
      ensures storage != null && storage.throwing ==> storage.items == old(storage.items)
      ensures Load() == None
    {
      clearCount := clearCount + 1;
      if storage != null && !storage.throwing {
        storage.items := storage.items - {StorageKey};
      }
    }
  }

  /** Reading back what a save wrote yields the saved record, whatever else
      the store holds. */
  lemma SavedRecordLoads(items: map<string, string>, state: AuthState)
    ensures var m := items[StorageKey := Serialize(state)];
      StorageKey in m && m[StorageKey] != "" && Deserialize(m[StorageKey]) == Some(state)
  {
    DeserializeSerialize(state);
  }
}
