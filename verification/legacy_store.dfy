/** The legacy multi-plan store: every student keeps one login and one saved
    map per plan, in local storage when offline, in the `user_logins` and
    `user_maps` tables of Supabase, or else in Google Sheets fed by Google
    Forms. The network calls are not modelled: what a select or a sheet read
    returns is a parameter, and what a save would send is returned as a
    `LegacyWrite`. */
module LegacyDbUtils {
  import opened Wrappers
  import opened UserType
  import opened Backend
  import opened LocalStorage

  /** A stored record: the plans logged into and the maps saved, each keyed
      by plan id. */
  datatype LocalUser = LocalUser(allLogins: seq<CarreraInfo>, maps: seq<MapRecord>)

  /** The record a student starts from. */
  const EmptyUser := LocalUser([], [])

  type Store = Storage<LocalUser>

  // ---------------------------------------------------------------------------
  // Keyed upsert: drop every entry with the new entry's key, then append it.

  /** At most one entry per key. */
  predicate UniqueKeys<T(==,!new), K(==)>(xs: seq<T>, key: T -> K) {
    forall i, j :: 0 <= i < j < |xs| ==> key(xs[i]) != key(xs[j])
  }

  /** `filter((l) => key(l) !== id)`. */
  function WithoutKey<T(==,!new), K(==)>(xs: seq<T>, key: T -> K, id: K): (r: seq<T>)
    ensures forall x :: x in r <==> x in xs && key(x) != id
    ensures |r| <= |xs|
    ensures (forall x :: x in xs ==> key(x) != id) ==> r == xs
  {
    if xs == [] then []
    else
      assert forall x :: x in xs <==> x == xs[0] || x in xs[1..];
      (if key(xs[0]) != id then [xs[0]] else []) + WithoutKey(xs[1..], key, id)
  }

  /** Filtering distributes over concatenation. */
  lemma {:induction false} WithoutKeyAppend<T(!new), K>(a: seq<T>, b: seq<T>, key: T -> K, id: K)
    ensures WithoutKey(a + b, key, id) == WithoutKey(a, key, id) + WithoutKey(b, key, id)
  {
    if a == [] {
      assert a + b == b;
    } else {
      assert (a + b)[1..] == a[1..] + b;
      WithoutKeyAppend(a[1..], b, key, id);
    }
  }

  /** Filtering keeps keys unique. */
  lemma {:induction false} WithoutKeyUnique<T(!new), K>(xs: seq<T>, key: T -> K, id: K)
    requires UniqueKeys(xs, key)
    ensures UniqueKeys(WithoutKey(xs, key, id), key)
  {
    if xs != [] {
      var tail := xs[1..];
      assert UniqueKeys(tail, key) by {
        forall i, j | 0 <= i < j < |tail| ensures key(tail[i]) != key(tail[j]) {
          assert tail[i] == xs[i + 1] && tail[j] == xs[j + 1];
        }
      }
      WithoutKeyUnique(tail, key, id);
      var rest := WithoutKey(tail, key, id);
      if key(xs[0]) != id {
        forall y | y in rest ensures key(y) != key(xs[0]) {
          var k :| 0 <= k < |tail| && tail[k] == y;
          assert xs[k + 1] == y;
        }
        var r := [xs[0]] + rest;
        forall i, j | 0 <= i < j < |r| ensures key(r[i]) != key(r[j]) {
          if i == 0 {
            assert r[j] == rest[j - 1];
            assert r[j] in rest;
          } else {
            assert r[i] == rest[i - 1] && r[j] == rest[j - 1];
          }
        }
      } else {
        assert WithoutKey(xs, key, id) == [] + rest;
        assert [] + rest == rest;
      }
    }
  }

  /** The keyed upsert the offline branches perform with `filter` and `push`,
      and the one Supabase performs on conflict. */
  function Upsert<T(==,!new), K(==)>(xs: seq<T>, key: T -> K, x: T): (r: seq<T>)
    ensures |r| > 0 && r[|r| - 1] == x
    ensures forall y :: y in r && key(y) == key(x) ==> y == x
    ensures forall y :: y in xs && key(y) != key(x) ==> y in r
    ensures forall y :: y in r ==> y == x || y in xs
    ensures r[..|r| - 1] == WithoutKey(xs, key, key(x))
  {
    var r := WithoutKey(xs, key, key(x)) + [x];
    assert r[..|r| - 1] == WithoutKey(xs, key, key(x));
    r
  }

  /** Upserting the same entry twice is the same as upserting it once. */
  lemma UpsertIdempotent<T(!new), K>(xs: seq<T>, key: T -> K, x: T)
    ensures Upsert(Upsert(xs, key, x), key, x) == Upsert(xs, key, x)
  {
    var w := WithoutKey(xs, key, key(x));
    assert Upsert(xs, key, x) == w + [x];
    assert WithoutKey(w, key, key(x)) == w;
    assert WithoutKey([x], key, key(x)) == [] by {
      assert [x][1..] == [];
    }
    WithoutKeyAppend(w, [x], key, key(x));
    assert w + [] == w;
    assert WithoutKey(w + [x], key, key(x)) == w;
  }

  /** An upsert keeps at most one entry per key. */
  lemma UpsertKeepsUniqueKeys<T(!new), K>(xs: seq<T>, key: T -> K, x: T)
    requires UniqueKeys(xs, key)
    ensures UniqueKeys(Upsert(xs, key, x), key)
  {
    var w := WithoutKey(xs, key, key(x));
    WithoutKeyUnique(xs, key, key(x));
    var r := w + [x];
    assert Upsert(xs, key, x) == r;
    forall i, j | 0 <= i < j < |r| ensures key(r[i]) != key(r[j]) {
      if j == |r| - 1 {
        assert r[i] == w[i] && r[i] in w;
      } else {
        assert r[i] == w[i] && r[j] == w[j];
      }
    }
  }

  function LoginKey(l: CarreraInfo): string { l.carreraid }

  function MapKey(m: MapRecord): string { m.carreraid }

  /** The login a user's plan choice produces. */
  function LoginOf(user: UserInfo): CarreraInfo {
    CarreraInfo(user.carrera, user.orientacion, user.finDeCarrera)
  }

  // ---------------------------------------------------------------------------
  // Offline branches.

  /** The record stored for `padron`, or the empty one. */
  function Current(st: Store, padron: string): LocalUser {
    GetLocalUserData(st, padron).GetOr(EmptyUser)
  }

  /** The updater offline `postUser` hands to `updateLocalUser`. */
  function LoginUpdater(user: UserInfo): LocalUser -> LocalUser {
    (cur: LocalUser) => cur.(allLogins := Upsert(cur.allLogins, LoginKey, LoginOf(user)))
  }

  /** The updater offline `postGraph` hands to `updateLocalUser`. */
  function MapUpdater(user: UserInfo, m: PlanMap): LocalUser -> LocalUser {
    (cur: LocalUser) => cur.(maps := Upsert(cur.maps, MapKey, MapRecord(user.carrera, m)))
  }

  /** Offline `postUser`: replaces the login of the user's plan. */
  function OfflinePostUser(st: Store, user: UserInfo): (r: Store)
    ensures r.Window? <==> st.Window?
    ensures st.Window? ==> GetLocalUserData(r, user.padron).Some?
    ensures st.Window? ==> Current(r, user.padron).maps == Current(st, user.padron).maps
    ensures st.Window? ==> LoginOf(user) in Current(r, user.padron).allLogins
    ensures st.Window? ==> forall l :: l in Current(r, user.padron).allLogins && l.carreraid == user.carrera ==> l == LoginOf(user)
    ensures st.Window? ==> forall l :: l in Current(st, user.padron).allLogins && l.carreraid != user.carrera ==> l in Current(r, user.padron).allLogins
    ensures st.Window? ==> Current(r, user.padron).allLogins == Upsert(Current(st, user.padron).allLogins, LoginKey, LoginOf(user))
    ensures forall p :: p != user.padron ==> GetLocalUserData(r, p) == GetLocalUserData(st, p)
  {
    UpdateLocalUser(st, user.padron, EmptyUser, LoginUpdater(user))
  }

  /** Offline `postGraph`: replaces the saved map of the user's plan. */
  function OfflinePostGraph(st: Store, user: UserInfo, m: PlanMap): (r: Store)
    ensures r.Window? <==> st.Window?
    ensures st.Window? ==> GetLocalUserData(r, user.padron).Some?
    ensures st.Window? ==> Current(r, user.padron).allLogins == Current(st, user.padron).allLogins
    ensures st.Window? ==> MapRecord(user.carrera, m) in Current(r, user.padron).maps
    ensures st.Window? ==> forall x :: x in Current(r, user.padron).maps && x.carreraid == user.carrera ==> x.plan == m
    ensures st.Window? ==> forall x :: x in Current(st, user.padron).maps && x.carreraid != user.carrera ==> x in Current(r, user.padron).maps
    ensures st.Window? ==> Current(r, user.padron).maps == Upsert(Current(st, user.padron).maps, MapKey, MapRecord(user.carrera, m))
    ensures forall p :: p != user.padron ==> GetLocalUserData(r, p) == GetLocalUserData(st, p)
  {
    UpdateLocalUser(st, user.padron, EmptyUser, MapUpdater(user, m))
  }

  /** Offline `getUserLogins`: the stored logins (possibly none), or null for
      an unknown student. */
  function OfflineGetUserLogins(st: Store, padron: string): (r: Option<seq<CarreraInfo>>)
    ensures r.None? <==> GetLocalUserData(st, padron).None?
    ensures r.Some? ==> r.value == Current(st, padron).allLogins
  {
    match GetLocalUserData(st, padron)
    case Some(u) => Some(u.allLogins)
    case None => None
  }

  /** Offline `getGraphs`: the stored maps, empty for an unknown student. */
  function OfflineGetGraphs(st: Store, padron: string): (r: seq<MapRecord>)
    ensures r == Current(st, padron).maps
    ensures GetLocalUserData(st, padron).None? ==> r == []
  {
    match GetLocalUserData(st, padron)
    case Some(u) => u.maps
    case None => []
  }

  /** Logging into the same plan twice stores what logging in once does. */
  lemma OfflinePostUserIdempotent(st: Store, user: UserInfo)
    ensures OfflinePostUser(OfflinePostUser(st, user), user) == OfflinePostUser(st, user)
  {
    UpsertIdempotent(Current(st, user.padron).allLogins, LoginKey, LoginOf(user));
    UpdateLocalUserIdempotent(st, user.padron, EmptyUser, LoginUpdater(user));
  }

  /** Saving the same map twice stores what saving it once does. */
  lemma OfflinePostGraphIdempotent(st: Store, user: UserInfo, m: PlanMap)
    ensures OfflinePostGraph(OfflinePostGraph(st, user, m), user, m) == OfflinePostGraph(st, user, m)
  {
    UpsertIdempotent(Current(st, user.padron).maps, MapKey, MapRecord(user.carrera, m));
    UpdateLocalUserIdempotent(st, user.padron, EmptyUser, MapUpdater(user, m));
  }

  /** Offline logins keep one login per plan. */
  lemma OfflinePostUserKeepsOnePerPlan(st: Store, user: UserInfo)
    requires UniqueKeys(Current(st, user.padron).allLogins, LoginKey)
    ensures UniqueKeys(Current(OfflinePostUser(st, user), user.padron).allLogins, LoginKey)
  {
    UpsertKeepsUniqueKeys(Current(st, user.padron).allLogins, LoginKey, LoginOf(user));
  }

  /** Offline saves keep one map per plan. */
  lemma OfflinePostGraphKeepsOnePerPlan(st: Store, user: UserInfo, m: PlanMap)
    requires UniqueKeys(Current(st, user.padron).maps, MapKey)
    ensures UniqueKeys(Current(OfflinePostGraph(st, user, m), user.padron).maps, MapKey)
  {
    UpsertKeepsUniqueKeys(Current(st, user.padron).maps, MapKey, MapRecord(user.carrera, m));
  }

  /** After saving a map, loading finds it under the user's plan, last and
      exactly once, whatever the record held before. */
  lemma OfflineSaveThenLoad(st: Store, user: UserInfo, m: PlanMap)
    requires st.Window?
    ensures var maps := OfflineGetGraphs(OfflinePostGraph(st, user, m), user.padron);
      && MapRecord(user.carrera, m) in maps
      && forall i :: 0 <= i < |maps| && maps[i].carreraid == user.carrera ==> i == |maps| - 1
  {
    var maps := OfflineGetGraphs(OfflinePostGraph(st, user, m), user.padron);
    var w := WithoutKey(Current(st, user.padron).maps, MapKey, user.carrera);
    assert maps[..|maps| - 1] == w;
    forall i | 0 <= i < |maps| - 1 ensures maps[i].carreraid != user.carrera {
      assert maps[i] == w[i] && w[i] in w;
    }
  }

  // ---------------------------------------------------------------------------
  // Supabase branches.

  /** `v || null` on write and `v || undefined` on read: an absent or empty
      name is stored and read as absent. */
  function OrAbsent(v: Option<string>): (r: Option<string>)
    ensures r.Some? <==> v.Some? && v.value != ""
    ensures r.Some? ==> r == v
  {
    if v.Some? && v.value != "" then v else None
  }

  /** A row of `user_logins`; `None` is a null column. */
  datatype LoginRow = LoginRow(
    padron: string,
    carreraid: string,
    orientacionid: Option<string>,
    findecarreraid: Option<string>)

  /** A row of `user_maps`. */
  datatype MapRow = MapRow(padron: string, carreraid: string, plan: PlanMap)

  /** Both tables upsert on conflict of the pair (student, plan). */
  function LoginRowKey(row: LoginRow): (string, string) { (row.padron, row.carreraid) }

  function MapRowKey(row: MapRow): (string, string) { (row.padron, row.carreraid) }

  /** The row Supabase `postUser` upserts. */
  function LoginRowOf(user: UserInfo): (row: LoginRow)
    ensures row.padron == user.padron && row.carreraid == user.carrera
    ensures row.orientacionid.Some? <==> user.orientacion.Some? && user.orientacion.value != ""
    ensures row.findecarreraid.Some? <==> user.finDeCarrera.Some? && user.finDeCarrera.value != ""
    ensures row.orientacionid.Some? ==> row.orientacionid == user.orientacion
    ensures row.findecarreraid.Some? ==> row.findecarreraid == user.finDeCarrera
  {
    LoginRow(user.padron, user.carrera, OrAbsent(user.orientacion), OrAbsent(user.finDeCarrera))
  }

  /** One selected row as a login. */
  function LoginOfRow(row: LoginRow): (l: CarreraInfo)
    ensures l.carreraid == row.carreraid
    ensures l.orientacionid.Some? ==> l.orientacionid == row.orientacionid && l.orientacionid.value != ""
    ensures l.findecarreraid.Some? ==> l.findecarreraid == row.findecarreraid && l.findecarreraid.value != ""
    ensures row.orientacionid.Some? && row.orientacionid.value != "" ==> l.orientacionid == row.orientacionid
    ensures row.findecarreraid.Some? && row.findecarreraid.value != "" ==> l.findecarreraid == row.findecarreraid
  {
    CarreraInfo(row.carreraid, OrAbsent(row.orientacionid), OrAbsent(row.findecarreraid))
  }

  /** Supabase `getUserLogins`: null on an error or when the student has no
      row, otherwise one login per row in row order. */
  function RemoteGetUserLogins(q: Query<LoginRow>): (r: Option<seq<CarreraInfo>>)
    ensures r.None? <==> q.QueryError? || q.rows == []
    ensures r.Some? ==> |r.value| == |q.rows|
    ensures r.Some? ==> forall i :: 0 <= i < |r.value| ==> r.value[i] == LoginOfRow(q.rows[i])
  {
    match q
    case QueryError => None
    case Rows(rows) =>
      if rows == [] then None
      else Some(seq(|rows|, i requires 0 <= i < |rows| => LoginOfRow(rows[i])))
  }

  /** Supabase `getGraphs`: no maps on an error, otherwise one per row. */
  function RemoteGetGraphs(q: Query<MapRow>): (r: seq<MapRecord>)
    ensures q.QueryError? ==> r == []
    ensures q.Rows? ==> |r| == |q.rows|
    ensures q.Rows? ==> forall i :: 0 <= i < |r| ==> r[i] == MapRecord(q.rows[i].carreraid, q.rows[i].plan)
  {
    match q
    case QueryError => []
    case Rows(rows) => seq(|rows|, i requires 0 <= i < |rows| => MapRecord(rows[i].carreraid, rows[i].plan))
  }

  /** `select ... eq("padron", padron)` on a table held as a sequence. */
  function SelectStudent<T(==,!new)>(table: seq<T>, padronOf: T -> string, padron: string): (r: seq<T>)
    ensures forall row :: row in r <==> row in table && padronOf(row) == padron
  {
    if table == [] then []
    else
      assert forall row :: row in table <==> row == table[0] || row in table[1..];
      (if padronOf(table[0]) == padron then [table[0]] else []) + SelectStudent(table[1..], padronOf, padron)
  }

  function LoginRowPadron(row: LoginRow): string { row.padron }

  function MapRowPadron(row: MapRow): string { row.padron }

  /** A login saved through Supabase is read back as the user's plan choice,
      with empty names read as absent. */
  lemma RemoteLoginRoundTrip(table: seq<LoginRow>, user: UserInfo)
    ensures var r := RemoteGetUserLogins(Rows(SelectStudent(Upsert(table, LoginRowKey, LoginRowOf(user)), LoginRowPadron, user.padron)));
      && r.Some?
      && CarreraInfo(user.carrera, OrAbsent(user.orientacion), OrAbsent(user.finDeCarrera)) in r.value
  {
    var row := LoginRowOf(user);
    var sel := SelectStudent(Upsert(table, LoginRowKey, row), LoginRowPadron, user.padron);
    assert row in sel;
    var k :| 0 <= k < |sel| && sel[k] == row;
    var r := RemoteGetUserLogins(Rows(sel));
    assert r.value[k] == LoginOfRow(row);
  }

  /** With non-empty names the round trip is exact. */
  lemma RemoteLoginExact(user: UserInfo)
    requires user.orientacion != Some("") && user.finDeCarrera != Some("")
    ensures LoginOfRow(LoginRowOf(user)) == LoginOf(user)
  {
  }

  /** A map saved through Supabase is read back under its plan, and no other
      map of that student and plan survives. */
  lemma RemoteMapRoundTrip(table: seq<MapRow>, user: UserInfo, m: PlanMap)
    ensures var r := RemoteGetGraphs(Rows(SelectStudent(Upsert(table, MapRowKey, MapRow(user.padron, user.carrera, m)), MapRowPadron, user.padron)));
      && MapRecord(user.carrera, m) in r
      && forall x :: x in r && x.carreraid == user.carrera ==> x.plan == m
  {
    var row := MapRow(user.padron, user.carrera, m);
    var sel := SelectStudent(Upsert(table, MapRowKey, row), MapRowPadron, user.padron);
    var r := RemoteGetGraphs(Rows(sel));
    assert row in sel;
    var k :| 0 <= k < |sel| && sel[k] == row;
    assert r[k] == MapRecord(user.carrera, m);
    forall x | x in r && x.carreraid == user.carrera ensures x.plan == m {
      var i :| 0 <= i < |r| && r[i] == x;
      assert sel[i] in sel;
    }
  }

  // ---------------------------------------------------------------------------
  // Google Sheets fallback: scanning a column for a student number.

  /** `Array.prototype.indexOf(x, from)`: the first position at or after
      `from` holding `x`, or -1. */
  function IndexOf(s: seq<string>, x: string, from: nat): (r: int)
    decreases |s| - from
    ensures r == -1 || from <= r < |s|
    ensures r != -1 ==> s[r] == x && forall k :: from <= k < r ==> s[k] != x
    ensures r == -1 <==> forall k :: from <= k < |s| ==> s[k] != x
  {
    if from >= |s| then -1
    else if s[from] == x then from
    else IndexOf(s, x, from + 1)
  }

  predicate StrictlyIncreasing(xs: seq<int>) {
    forall i, j :: 0 <= i < j < |xs| ==> xs[i] < xs[j]
  }

  /** The positions the scan collects from `from` on: every position of `x`,
      in order, and nothing else. */
  function Occurrences(s: seq<string>, x: string, from: nat): (r: seq<int>)
    decreases |s| - from
    ensures StrictlyIncreasing(r)
    ensures forall i :: 0 <= i < |r| ==> from <= r[i] < |s| && s[r[i]] == x
  {
    var j := IndexOf(s, x, from);
    if j == -1 then []
    else
      var rest := Occurrences(s, x, j + 1);
      assert forall i :: 0 <= i < |rest| ==> j < rest[i];
      [j] + rest
  }

  /** The scan misses no position of `x`. */
  lemma {:induction false} OccurrencesComplete(s: seq<string>, x: string, from: nat, k: nat)
    requires from <= k < |s| && s[k] == x
    ensures k in Occurrences(s, x, from)
    decreases |s| - from
  {
    var j := IndexOf(s, x, from);
    if j < k {
      OccurrencesComplete(s, x, j + 1, k);
    }
  }

  /** What the scan still collects once `indexOf` has returned `j`. */
  function Pending(s: seq<string>, x: string, j: int): seq<int>
    requires -1 <= j
  {
    if j == -1 then [] else [j] + Occurrences(s, x, j + 1)
  }

  /** One turn of the scan loop moves `j` from what is pending to what is
      collected. */
  lemma ScanStep(s: seq<string>, x: string, indexes: seq<int>, j: nat)
    ensures (indexes + [j]) + Pending(s, x, IndexOf(s, x, j + 1)) == indexes + Pending(s, x, j)
  {
    var next := IndexOf(s, x, j + 1);
    var rest := Pending(s, x, next);
    assert Occurrences(s, x, j + 1) == rest;
    assert Pending(s, x, j) == [j] + rest;
    assert (indexes + [j]) + rest == indexes + ([j] + rest);
  }

  /** The scan loop `while ((j = padrones.indexOf(padron, j + 1)) !== -1)`:
      it stops, and collects every row of the student in increasing order. */
  method ScanIndexes(padrones: seq<string>, padron: string) returns (indexes: seq<int>)
    ensures StrictlyIncreasing(indexes)
    ensures forall i :: 0 <= i < |indexes| ==> 0 <= indexes[i] < |padrones| && padrones[indexes[i]] == padron
    ensures forall k :: 0 <= k < |padrones| && padrones[k] == padron ==> k in indexes
    ensures indexes == Occurrences(padrones, padron, 0)
  {
    indexes := [];
    var j := IndexOf(padrones, padron, 0);
    assert Pending(padrones, padron, j) == Occurrences(padrones, padron, 0);
    while j != -1
      invariant -1 <= j < |padrones|
      invariant indexes + Pending(padrones, padron, j) == Occurrences(padrones, padron, 0)
      decreases if j == -1 then 0 else |padrones| - j
    {
      ScanStep(padrones, padron, indexes, j);
      indexes := indexes + [j];
      j := IndexOf(padrones, padron, j + 1);
    }
    assert indexes + [] == indexes;
    forall k | 0 <= k < |padrones| && padrones[k] == padron ensures k in indexes {
      OccurrencesComplete(padrones, padron, 0, k);
    }
  }

  /** A one-row range `n:n` of the users sheet, 1-based. */
  datatype RowRange = RowRange(firstRow: int, lastRow: int)

  /** The ranges `getUserLogins` batch-fetches: row `index + 1` for each index. */
  function RangesOf(indexes: seq<int>): (r: seq<RowRange>)
    ensures |r| == |indexes|
    ensures forall i :: 0 <= i < |r| ==> r[i].firstRow == r[i].lastRow == indexes[i] + 1
  {
    seq(|indexes|, i requires 0 <= i < |indexes| => RowRange(indexes[i] + 1, indexes[i] + 1))
  }

  /** The scan finds nothing exactly when the student is not in the column. */
  lemma OccurrencesEmpty(s: seq<string>, x: string)
    ensures Occurrences(s, x, 0) == [] <==> x !in s
  {
    if x in s {
      var k :| 0 <= k < |s| && s[k] == x;
      OccurrencesComplete(s, x, 0, k);
    }
  }

  /** Every row of the student is among the fetched ranges. */
  lemma RangesCoverRows(s: seq<string>, x: string)
    ensures forall k :: 0 <= k < |s| && s[k] == x ==> RowRange(k + 1, k + 1) in RangesOf(Occurrences(s, x, 0))
  {
    var indexes := Occurrences(s, x, 0);
    var ranges := RangesOf(indexes);
    forall k | 0 <= k < |s| && s[k] == x ensures RowRange(k + 1, k + 1) in ranges {
      OccurrencesComplete(s, x, 0, k);
      var i :| 0 <= i < |indexes| && indexes[i] == k;
      assert ranges[i] == RowRange(k + 1, k + 1);
    }
  }

  /** Sheets `getUserLogins` up to the batch fetch: null when the column could
      not be read or the student has no row, otherwise the 1-based rows of the
      student in order. `padrones` is column B of the users sheet. */
  method SheetUserRanges(padrones: Option<seq<string>>, padron: string) returns (r: Option<seq<RowRange>>)
    ensures r.None? <==> padrones.None? || padron !in padrones.value
    ensures r.Some? ==> forall i :: 0 <= i < |r.value| ==>
      var row := r.value[i].firstRow;
      r.value[i].lastRow == row && 1 <= row <= |padrones.value| && padrones.value[row - 1] == padron
    ensures r.Some? ==> forall k :: 0 <= k < |padrones.value| && padrones.value[k] == padron ==>
      RowRange(k + 1, k + 1) in r.value
    ensures r.Some? ==> forall i, j :: 0 <= i < j < |r.value| ==> r.value[i].firstRow < r.value[j].firstRow
  {
    if padrones.None? {
      return None;
    }
    var indexes := ScanIndexes(padrones.value, padron);
    OccurrencesEmpty(padrones.value, padron);
    if |indexes| == 0 {
      return None;
    }
    RangesCoverRows(padrones.value, padron);
    return Some(RangesOf(indexes));
  }

  // ---------------------------------------------------------------------------
  // Google Sheets fallback: the saved maps.

  /** Columns B to D of the registros sheet; a column can be shorter than the
      others when its trailing cells are empty. */
  datatype Registros = Registros(padrones: seq<string>, carreras: seq<string>, maps: seq<string>)

  /** A cell of a column, `None` (undefined) outside it. */
  function Cell(column: seq<string>, k: int): (r: Option<string>)
    ensures r.Some? <==> 0 <= k < |column|
    ensures r.Some? ==> r.value == column[k]
  {
    if 0 <= k < |column| then Some(column[k]) else None
  }

  /** One saved map as the sheet holds it: the plan id and the map still as
      JSON text. */
  datatype SheetGraph = SheetGraph(carreraid: Option<string>, mapJson: Option<string>)

  /** The sheet entry of row `k`. */
  function EntryAt(data: Registros, k: int): SheetGraph {
    SheetGraph(Cell(data.carreras, k), Cell(data.maps, k))
  }

  /** Entries taken at every position the scan found include the entry of
      every row of the student. */
  lemma EntriesCoverRows(data: Registros, x: string, entries: seq<SheetGraph>)
    requires var idx := Occurrences(data.padrones, x, 0);
      |entries| == |idx| && forall n :: 0 <= n < |idx| ==> entries[n] == EntryAt(data, idx[n])
    ensures forall k :: 0 <= k < |data.padrones| && data.padrones[k] == x ==> EntryAt(data, k) in entries
  {
    var idx := Occurrences(data.padrones, x, 0);
    forall k | 0 <= k < |data.padrones| && data.padrones[k] == x ensures EntryAt(data, k) in entries {
      OccurrencesComplete(data.padrones, x, 0, k);
      var n :| 0 <= n < |idx| && idx[n] == k;
      assert entries[n] == EntryAt(data, k);
    }
  }

  /** The `for` loop pairing, for each index found, the plan and the map of
      that row. */
  method ZipEntries(data: Registros, indexes: seq<int>) returns (all: seq<SheetGraph>)
    ensures |all| == |indexes|
    ensures forall n :: 0 <= n < |indexes| ==> all[n] == EntryAt(data, indexes[n])
  {
    all := [];
    var i := 0;
    while i < |indexes|
      invariant 0 <= i <= |indexes|
      invariant |all| == i
      invariant forall n :: 0 <= n < i ==> all[n] == EntryAt(data, indexes[n])
    {
      all := all + [SheetGraph(Cell(data.carreras, indexes[i]), Cell(data.maps, indexes[i]))];
      i := i + 1;
    }
  }

  /** Sheets `getGraphs` up to parsing the maps: undefined when the sheet could
      not be read, otherwise the entries of every row of the student, in row
      order; a student without rows gets an empty list. */
  method SheetGraphs(data: Option<Registros>, padron: string) returns (r: Option<seq<SheetGraph>>)
    ensures r.None? <==> data.None?
    ensures r.Some? ==> var idx := Occurrences(data.value.padrones, padron, 0);
      |r.value| == |idx| && forall i :: 0 <= i < |idx| ==> r.value[i] == EntryAt(data.value, idx[i])
    ensures r.Some? ==> forall k :: 0 <= k < |data.value.padrones| && data.value.padrones[k] == padron ==>
      EntryAt(data.value, k) in r.value
    ensures r.Some? ==> (r.value == [] <==> padron !in data.value.padrones)
  {
    if data.None? {
      return None;
    }
    var registros := data.value;
    var indexes := ScanIndexes(registros.padrones, padron);
    var all := ZipEntries(registros, indexes);
    EntriesCoverRows(registros, padron, all);
    OccurrencesEmpty(registros.padrones, padron);
    return Some(all);
  }

  // ---------------------------------------------------------------------------
  // The exported operations, dispatched on the configuration.

  /** The effect of a save: the new local storage, a Supabase upsert, or a
      Google Forms post (the map as a value; it is sent as JSON text). */
  datatype LegacyWrite =
    | LocalWrite(storage: Store)
    | UpsertLogin(loginRow: LoginRow)
    | UpsertMap(mapRow: MapRow)
    | UserForm(padron: string, carrera: string, orientacion: string, finDeCarrera: string)
    | GraphForm(padron: string, carrera: string, plan: PlanMap)

  /** `postUser`. The form sends an absent name as the empty string. */
  function PostUser(cfg: Config, st: Store, user: UserInfo): (w: LegacyWrite)
    ensures w.LocalWrite? <==> SelectBackend(cfg) == Offline
    ensures w.LocalWrite? ==> w.storage == OfflinePostUser(st, user)
    ensures w.UpsertLogin? <==> SelectBackend(cfg) == Supabase
    ensures w.UpsertLogin? ==> w.loginRow == LoginRowOf(user)
    ensures w.UserForm? <==> SelectBackend(cfg) == Fallback
    ensures w.UserForm? ==> w.padron == user.padron && w.carrera == user.carrera
    ensures w.UserForm? ==> (w.orientacion == "" <==> OrAbsent(user.orientacion).None?)
    ensures w.UserForm? ==> (w.finDeCarrera == "" <==> OrAbsent(user.finDeCarrera).None?)
    ensures w.UserForm? && w.orientacion != "" ==> user.orientacion == Some(w.orientacion)
    ensures w.UserForm? && w.finDeCarrera != "" ==> user.finDeCarrera == Some(w.finDeCarrera)
  {
    match SelectBackend(cfg)
    case Offline => LocalWrite(OfflinePostUser(st, user))
    case Supabase => UpsertLogin(LoginRowOf(user))
    case Fallback => UserForm(user.padron, user.carrera, user.orientacion.GetOr(""), user.finDeCarrera.GetOr(""))
  }

  /** `postGraph`. */
  function PostGraph(cfg: Config, st: Store, user: UserInfo, m: PlanMap): (w: LegacyWrite)
    ensures w.LocalWrite? <==> SelectBackend(cfg) == Offline
    ensures w.LocalWrite? ==> w.storage == OfflinePostGraph(st, user, m)
    ensures w.UpsertMap? <==> SelectBackend(cfg) == Supabase
    ensures w.UpsertMap? ==> MapRowKey(w.mapRow) == (user.padron, user.carrera) && w.mapRow.plan == m
    ensures w.GraphForm? <==> SelectBackend(cfg) == Fallback
    ensures w.GraphForm? ==> w.padron == user.padron && w.carrera == user.carrera && w.plan == m
  {
    match SelectBackend(cfg)
    case Offline => LocalWrite(OfflinePostGraph(st, user, m))
    case Supabase => UpsertMap(MapRow(user.padron, user.carrera, m))
    case Fallback => GraphForm(user.padron, user.carrera, m)
  }

  /** The form and the Supabase row agree on which names are absent. */
  lemma FormAgreesWithRow(online: Config, fallback: Config, st: Store, user: UserInfo)
    requires SelectBackend(online) == Supabase && SelectBackend(fallback) == Fallback
    ensures var row := PostUser(online, st, user).loginRow;
      var form := PostUser(fallback, st, user);
      && (form.orientacion == "" <==> row.orientacionid.None?)
      && (form.finDeCarrera == "" <==> row.findecarreraid.None?)
      && (row.orientacionid.Some? ==> row.orientacionid.value == form.orientacion)
      && (row.findecarreraid.Some? ==> row.findecarreraid.value == form.finDeCarrera)
  {
  }

  /** What `getUserLogins` answers, or, on Google Sheets, the rows it goes on
      to fetch. */
  datatype LoginsOutcome = Logins(logins: Option<seq<CarreraInfo>>) | FetchRows(ranges: seq<RowRange>)

  /** `getUserLogins`: `remote` is what the select on `user_logins` returned and
      `sheet` the student-number column of the users sheet (`None` on an
      error). */
  method GetUserLogins(cfg: Config, st: Store, padron: string, remote: Query<LoginRow>, sheet: Option<seq<string>>)
    returns (r: LoginsOutcome)
    ensures SelectBackend(cfg) == Offline ==> r == Logins(OfflineGetUserLogins(st, padron))
    ensures SelectBackend(cfg) == Supabase ==> r == Logins(RemoteGetUserLogins(remote))
    ensures SelectBackend(cfg) == Fallback ==>
      (r == Logins(None) <==> sheet.None? || padron !in sheet.value)
    ensures SelectBackend(cfg) == Fallback && sheet.Some? && padron in sheet.value ==> r.FetchRows?
    ensures r.FetchRows? ==> SelectBackend(cfg) == Fallback && sheet.Some? && r.ranges != []
    ensures r.FetchRows? ==> forall i :: 0 <= i < |r.ranges| ==>
      var row := r.ranges[i].firstRow;
      1 <= row <= |sheet.value| && sheet.value[row - 1] == padron
    ensures r.FetchRows? ==> forall k :: 0 <= k < |sheet.value| && sheet.value[k] == padron ==>
      RowRange(k + 1, k + 1) in r.ranges
    ensures r.FetchRows? ==> forall i, j :: 0 <= i < j < |r.ranges| ==> r.ranges[i].firstRow < r.ranges[j].firstRow
  {
    match SelectBackend(cfg)
    case Offline =>
      return Logins(OfflineGetUserLogins(st, padron));
    case Supabase =>
      return Logins(RemoteGetUserLogins(remote));
    case Fallback =>
      var ranges := SheetUserRanges(sheet, padron);
      if ranges.None? {
        return Logins(None);
      }
      return FetchRows(ranges.value);
  }

  /** What `getGraphs` answers; on Google Sheets the entries before their maps
      are parsed, `None` standing for `undefined`. */
  datatype GraphsOutcome = Graphs(maps: seq<MapRecord>) | SheetEntries(entries: Option<seq<SheetGraph>>)

  /** `getGraphs`: `remote` is what the select on `user_maps` returned and
      `sheet` the registros sheet (`None` on an error). */
  method GetGraphs(cfg: Config, st: Store, padron: string, remote: Query<MapRow>, sheet: Option<Registros>)
    returns (r: GraphsOutcome)
    ensures r.Graphs? <==> SelectBackend(cfg) != Fallback
    ensures SelectBackend(cfg) == Offline ==> r.maps == OfflineGetGraphs(st, padron)
    ensures SelectBackend(cfg) == Supabase ==> r.maps == RemoteGetGraphs(remote)
    ensures r.SheetEntries? ==> (r.entries.None? <==> sheet.None?)
    ensures r.SheetEntries? && r.entries.Some? ==> var idx := Occurrences(sheet.value.padrones, padron, 0);
      |r.entries.value| == |idx| && forall i :: 0 <= i < |idx| ==> r.entries.value[i] == EntryAt(sheet.value, idx[i])
    ensures r.SheetEntries? && r.entries.Some? ==>
      forall k :: 0 <= k < |sheet.value.padrones| && sheet.value.padrones[k] == padron ==>
        EntryAt(sheet.value, k) in r.entries.value
    ensures r.SheetEntries? && r.entries.Some? ==> (r.entries.value == [] <==> padron !in sheet.value.padrones)
  {
    match SelectBackend(cfg)
    case Offline =>
      return Graphs(OfflineGetGraphs(st, padron));
    case Supabase =>
      return Graphs(RemoteGetGraphs(remote));
    case Fallback =>
      var entries := SheetGraphs(sheet, padron);
      return SheetEntries(entries);
  }
}
