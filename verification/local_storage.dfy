/** The browser-local database both generations of the store keep under one
    storage key: a map from student number to that student's record. */
module LocalStorage {
  import opened Wrappers

  /** The storage as the app sees it: `NoWindow` outside a browser, otherwise
      the database under the key, `None` when the key is missing or its value
      does not parse as a database with a `users` field. */
  datatype Storage<U> = NoWindow | Window(stored: Option<map<string, U>>)

  /** `readLocalDb`: the stored database when there is one; anything
      unreadable is an empty database. */
  function ReadLocalDb<U>(st: Storage<U>): (db: map<string, U>)
    ensures st.NoWindow? || st.stored.None? ==> db == map[]
    ensures st.Window? && st.stored.Some? ==> db == st.stored.value
  {
    if st.Window? && st.stored.Some? then st.stored.value else map[]
  }

  /** `writeLocalDb`: stores `db` under the key; does nothing without a window. */
  function WriteLocalDb<U>(st: Storage<U>, db: map<string, U>): (r: Storage<U>)
    ensures r.Window? <==> st.Window?
    ensures ReadLocalDb(r) == if st.Window? then db else map[]
  {
    match st
    case NoWindow => NoWindow
    case Window(_) => Window(Some(db))
  }

  /** `getLocalUserData`: the stored record of `padron`, if any. */
  function GetLocalUserData<U>(st: Storage<U>, padron: string): (r: Option<U>)
    ensures r.Some? <==> padron in ReadLocalDb(st)
    ensures r.Some? ==> r.value == ReadLocalDb(st)[padron]
  {
    var db := ReadLocalDb(st);
    if padron in db then Some(db[padron]) else None
  }

  /** `updateLocalUser`: read-modify-write of one record; a missing record
      starts from `default`, every other record stays as it was. */
  function UpdateLocalUser<U>(st: Storage<U>, padron: string, default: U, updater: U -> U): (r: Storage<U>)
    ensures r.Window? <==> st.Window?
    ensures st.Window? ==>
      GetLocalUserData(r, padron) == Some(updater(GetLocalUserData(st, padron).GetOr(default)))
    ensures st.NoWindow? ==> GetLocalUserData(r, padron) == None
    ensures forall p :: p != padron ==> GetLocalUserData(r, p) == GetLocalUserData(st, p)
    ensures st.Window? ==> ReadLocalDb(r).Keys == ReadLocalDb(st).Keys + {padron}
  {
    var db := ReadLocalDb(st);
    var current := if padron in db then db[padron] else default;
    WriteLocalDb(st, db[padron := updater(current)])
  }

  /** Applying an update twice stores what applying it once does when the
      update is idempotent on the record it finds. */
  lemma UpdateLocalUserIdempotent<U>(st: Storage<U>, padron: string, default: U, updater: U -> U)
    requires var cur := GetLocalUserData(st, padron).GetOr(default); updater(updater(cur)) == updater(cur)
    ensures UpdateLocalUser(UpdateLocalUser(st, padron, default, updater), padron, default, updater)
      == UpdateLocalUser(st, padron, default, updater)
  {
    if st.Window? {
      var db := ReadLocalDb(st);
      var once := updater(GetLocalUserData(st, padron).GetOr(default));
      assert ReadLocalDb(UpdateLocalUser(st, padron, default, updater)) == db[padron := once];
      assert db[padron := once][padron := once] == db[padron := once];
    }
  }
}
