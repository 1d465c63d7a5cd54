/** The current single-plan store: one bucketed state per student, kept in
    local storage when offline or in the `user_state` table of Supabase. The
    network calls are not modelled: what a select returns is a parameter, and
    what a save would upsert is returned as a `Write`. */
module DbUtils {
  import opened Wrappers
  import opened UserType
  import opened Backend
  import opened LocalStorage
  import opened StateCodec
  import CodecRoundTrip

  /** A stored record; `state` is `None` when the stored object lacks it. */
  datatype LocalUser = LocalUser(state: Option<LocalUserState>)

  type Store = Storage<LocalUser>

  const DefaultUser := LocalUser(Some(DefaultState))

  /** The only plan the current store knows. */
  const PlanId := "biomedica-2022"

  const PlanLogin := CarreraInfo(PlanId, None, None)

  /** A row of `user_state` as read back; `None` stands for a null column. */
  datatype StateRow = StateRow(
    aprobadas: Option<seq<Course>>,
    regularizadas: Option<seq<string>>,
    noAprobadas: Option<seq<string>>,
    ingles: Option<bool>,
    trabajoProfesional: Option<bool>)

  /** The effect of a save: the new local storage, an upsert keyed on the
      student number, or nothing. */
  datatype Write =
    | LocalWrite(storage: Store)
    | RemoteUpsert(padron: string, row: StateRow)
    | RemoteTouch(padron: string)
    | NoWrite

  /** `local?.state`: the state stored for `padron`, if any. */
  function StoredState(st: Store, padron: string): Option<LocalUserState> {
    match GetLocalUserData(st, padron)
    case Some(u) => u.state
    case None => None
  }

  // ---------------------------------------------------------------------------
  // Offline branches.

  /** Offline `postUser`: makes sure the student has a state, keeping the one
      already stored. */
  function OfflinePostUser(st: Store, padron: string): (r: Store)
    ensures r.Window? <==> st.Window?
    ensures st.Window? && StoredState(st, padron).Some? ==> StoredState(r, padron) == StoredState(st, padron)
    ensures st.Window? && StoredState(st, padron).None? ==> StoredState(r, padron) == Some(DefaultState)
    ensures st.NoWindow? ==> StoredState(r, padron).None?
    ensures forall p :: p != padron ==> GetLocalUserData(r, p) == GetLocalUserData(st, p)
  {
    UpdateLocalUser(st, padron, DefaultUser,
      (current: LocalUser) => current.(state := if current.state.Some? then current.state else Some(DefaultState)))
  }

  /** Offline `postGraph`: replaces the student's state by the encoded map. */
  function OfflinePostGraph(st: Store, padron: string, m: PlanMap): (r: Store)
    ensures r.Window? <==> st.Window?
    ensures st.Window? ==> StoredState(r, padron) == Some(BuildStateFromMap(m))
    ensures st.NoWindow? ==> StoredState(r, padron).None?
    ensures forall p :: p != padron ==> GetLocalUserData(r, p) == GetLocalUserData(st, p)
  {
    UpdateLocalUser(st, padron, DefaultUser, (current: LocalUser) => current.(state := Some(BuildStateFromMap(m))))
  }

  /** Offline `getGraphs`: the decoded state as the single plan's map, or no
      map when nothing is stored. */
  function OfflineGetGraphs(st: Store, padron: string): (r: seq<MapRecord>)
    ensures |r| <= 1
    ensures r == [] <==> StoredState(st, padron).None?
    ensures r != [] ==> r[0] == MapRecord(PlanId, BuildMapFromState(StoredState(st, padron).value))
  {
    match StoredState(st, padron)
    case None => []
    case Some(s) => [MapRecord(PlanId, BuildMapFromState(s))]
  }

  /** Offline `getUserLogins`: the single plan when a state is stored. */
  function OfflineGetUserLogins(st: Store, padron: string): (r: Option<seq<CarreraInfo>>)
    ensures r.Some? <==> StoredState(st, padron).Some?
    ensures r.Some? ==> r.value == [PlanLogin]
  {
    if StoredState(st, padron).Some? then Some([PlanLogin]) else None
  }

  // ---------------------------------------------------------------------------
  // The Supabase row.

  /** The row `postGraph` upserts for a state. */
  function RowOf(s: LocalUserState): StateRow {
    StateRow(Some(s.aprobadas), Some(s.regularizadas), Some(s.noAprobadas), Some(s.ingles), Some(s.trabajoProfesional))
  }

  /** The state `getGraphs` rebuilds from a row: null lists are empty, null
      flags are false. */
  function StateOfRow(row: StateRow): (s: LocalUserState)
    ensures row.aprobadas.None? ==> s.aprobadas == []
    ensures row.regularizadas.None? ==> s.regularizadas == []
    ensures row.noAprobadas.None? ==> s.noAprobadas == []
    ensures row.ingles.None? ==> !s.ingles
    ensures row.trabajoProfesional.None? ==> !s.trabajoProfesional
    ensures row.aprobadas.Some? ==> s.aprobadas == row.aprobadas.value
    ensures row.regularizadas.Some? ==> s.regularizadas == row.regularizadas.value
    ensures row.noAprobadas.Some? ==> s.noAprobadas == row.noAprobadas.value
    ensures row.ingles.Some? ==> s.ingles == row.ingles.value
    ensures row.trabajoProfesional.Some? ==> s.trabajoProfesional == row.trabajoProfesional.value
    ensures forall t :: row == RowOf(t) ==> s == t
  {
    LocalUserState(
      row.aprobadas.GetOr([]),
      row.regularizadas.GetOr([]),
      row.noAprobadas.GetOr([]),
      row.ingles.GetOr(false),
      row.trabajoProfesional.GetOr(false))
  }

  // ---------------------------------------------------------------------------
  // The exported operations, dispatched on the configuration.

  /** `postUser`. */
  function PostUser(cfg: Config, st: Store, user: UserInfo): (w: Write)
    ensures w.LocalWrite? <==> SelectBackend(cfg) == Offline
    ensures w.LocalWrite? ==> w.storage == OfflinePostUser(st, user.padron)
    ensures w.RemoteTouch? <==> SelectBackend(cfg) == Supabase
    ensures w.RemoteTouch? ==> w.padron == user.padron
    ensures !w.RemoteUpsert?
  {
    match SelectBackend(cfg)
    case Offline => LocalWrite(OfflinePostUser(st, user.padron))
    case Supabase => RemoteTouch(user.padron)
    case Fallback => NoWrite
  }

  /** `postGraph`: the map is encoded before it is stored on either backend. */
  function PostGraph(cfg: Config, st: Store, user: UserInfo, m: PlanMap): (w: Write)
    ensures w.LocalWrite? <==> SelectBackend(cfg) == Offline
    ensures w.LocalWrite? ==> w.storage == OfflinePostGraph(st, user.padron, m)
    ensures w.RemoteUpsert? <==> SelectBackend(cfg) == Supabase
    ensures w.RemoteUpsert? ==> w.padron == user.padron && StateOfRow(w.row) == BuildStateFromMap(m)
    ensures w.NoWrite? <==> SelectBackend(cfg) == Fallback
  {
    match SelectBackend(cfg)
    case Offline => LocalWrite(OfflinePostGraph(st, user.padron, m))
    case Supabase => RemoteUpsert(user.padron, RowOf(BuildStateFromMap(m)))
    case Fallback => NoWrite
  }

  /** `getGraphs`: `remote` is what the select on `user_state` returned. */
  function GetGraphs(cfg: Config, st: Store, padron: string, remote: Query<StateRow>): (r: seq<MapRecord>)
    ensures |r| <= 1
    ensures r != [] ==> r[0].carreraid == PlanId
    ensures SelectBackend(cfg) == Offline ==> r == OfflineGetGraphs(st, padron)
    ensures SelectBackend(cfg) == Supabase ==> (r == [] <==> remote.QueryError? || remote.rows == [])
    ensures SelectBackend(cfg) == Supabase && r != [] ==> r[0].plan == BuildMapFromState(StateOfRow(remote.rows[0]))
    ensures SelectBackend(cfg) == Fallback ==> r == []
  {
    match SelectBackend(cfg)
    case Offline => OfflineGetGraphs(st, padron)
    case Supabase =>
      if remote.QueryError? || |remote.rows| == 0 then []
      else [MapRecord(PlanId, BuildMapFromState(StateOfRow(remote.rows[0])))]
    case Fallback => []
  }

  /** `getUserLogins`: the Supabase branch answers with the single plan
      whatever its query returns, so a first login can save later. */
  function GetUserLogins(cfg: Config, st: Store, padron: string): (r: Option<seq<CarreraInfo>>)
    ensures r.Some? <==>
      (SelectBackend(cfg) == Offline && StoredState(st, padron).Some?) || SelectBackend(cfg) == Supabase
    ensures r.Some? ==> r.value == [PlanLogin]
  {
    match SelectBackend(cfg)
    case Offline => OfflineGetUserLogins(st, padron)
    case Supabase => Some([PlanLogin])
    case Fallback => None
  }

  // ---------------------------------------------------------------------------
  // Save/load properties.

  /** A `user_state` row whose state columns are all null. */
  const NullRow := StateRow(None, None, None, None, None)

  /** What the select on `user_state` returns for `padron` after a write, given
      the row the student had before (`None` when there was none). The table is
      upserted on the student number, so a student has at most one row; a touch
      writes only the key and the timestamp, so it keeps an existing row's state
      columns and creates a new row with null ones. */
  function ReadBack(w: Write, padron: string, before: Option<StateRow>): (q: Query<StateRow>)
    ensures q.Rows? && |q.rows| <= 1
    ensures w.RemoteUpsert? && w.padron == padron ==> q.rows == [w.row]
    ensures w.RemoteTouch? && w.padron == padron && before.Some? ==> q.rows == [before.value]
    ensures w.RemoteTouch? && w.padron == padron && before.None? ==>
      |q.rows| == 1 && StateOfRow(q.rows[0]) == DefaultState
    ensures !((w.RemoteUpsert? || w.RemoteTouch?) && w.padron == padron) ==>
      (q.rows == [] <==> before.None?) && (before.Some? ==> q.rows == [before.value])
  {
    var after :=
      if w.RemoteUpsert? && w.padron == padron then Some(w.row)
      else if w.RemoteTouch? && w.padron == padron then Some(before.GetOr(NullRow))
      else before;
    if after.Some? then Rows([after.value]) else Rows([])
  }

  /** Saving a map and loading it gives its normalised form on both backends
      (offline only inside a browser). */
  lemma SaveThenLoad(cfg: Config, st: Store, user: UserInfo, m: PlanMap, before: Option<StateRow>)
    requires SelectBackend(cfg) != Fallback
    requires SelectBackend(cfg) == Offline ==> st.Window?
    ensures var w := PostGraph(cfg, st, user, m);
      var st' := if w.LocalWrite? then w.storage else st;
      GetGraphs(cfg, st', user.padron, ReadBack(w, user.padron, before))
        == [MapRecord(PlanId, BuildMapFromState(BuildStateFromMap(m)))]
  {
  }

  /** Registering through Supabase never discards saved progress: a student
      with a row loads what the row holds, and a new student loads one empty
      map for the plan. */
  lemma RemoteRegisterThenLoad(cfg: Config, st: Store, user: UserInfo, before: Option<StateRow>)
    requires SelectBackend(cfg) == Supabase
    ensures GetGraphs(cfg, st, user.padron, ReadBack(PostUser(cfg, st, user), user.padron, before)) ==
      if before.Some? then [MapRecord(PlanId, BuildMapFromState(StateOfRow(before.value)))]
      else [MapRecord(PlanId, BuildMapFromState(DefaultState))]
    ensures GetUserLogins(cfg, st, user.padron) == Some([PlanLogin])
  {
  }

  /** Without a window nothing is stored and nothing is found. */
  lemma NoWindowKeepsNothing(padron: string, m: PlanMap)
    ensures OfflineGetGraphs(OfflinePostGraph(NoWindow, padron, m), padron) == []
    ensures OfflineGetUserLogins(OfflinePostUser(NoWindow, padron), padron).None?
  {
  }

  /** A save for one student leaves every other student's load unchanged. */
  lemma SaveIsolated(st: Store, padron: string, other: string, m: PlanMap)
    requires other != padron
    ensures OfflineGetGraphs(OfflinePostGraph(st, padron, m), other) == OfflineGetGraphs(st, other)
    ensures OfflineGetUserLogins(OfflinePostGraph(st, padron, m), other) == OfflineGetUserLogins(st, other)
  {
  }

  /** Registering a student never discards saved progress, and afterwards the
      student has a login. */
  lemma PostUserKeepsProgress(st: Store, padron: string)
    requires st.Window?
    ensures OfflineGetGraphs(OfflinePostUser(st, padron), padron) ==
      if StoredState(st, padron).Some? then OfflineGetGraphs(st, padron)
      else [MapRecord(PlanId, BuildMapFromState(DefaultState))]
    ensures OfflineGetUserLogins(OfflinePostUser(st, padron), padron) == Some([PlanLogin])
  {
  }

  /** A concrete save and load: an approved, a regularised and a failed course,
      and the historical language checkbox, come back with their grades and the
      current checkbox name. */
  lemma LanguageExamScenario(stored: Option<map<string, LocalUser>>)
    ensures var m := PlanMap([Course("61.03", 8), Course("61.08", -1), Course("61.09", -3)], Some([InglesFlag]));
      OfflineGetGraphs(OfflinePostGraph(Window(stored), "12345", m), "12345")
        == [MapRecord(PlanId, PlanMap(
             [Course("61.03", 8), Course("61.08", -1), Course("61.09", -3)],
             Some([SuficienciaFlag])))]
  {
    var m := PlanMap([Course("61.03", 8), Course("61.08", -1), Course("61.09", -3)], Some([InglesFlag]));
    var s := LocalUserState([Course("61.03", 8)], ["61.08"], ["61.09"], true, false);
    ScenarioDecode(s);
    CodecRoundTrip.RoundTrip(s);
    CodecRoundTrip.EncodeSameEntries(m, BuildMapFromState(s));
    assert BuildStateFromMap(m) == s;
  }

  lemma ScenarioDecode(s: LocalUserState)
    requires s == LocalUserState([Course("61.03", 8)], ["61.08"], ["61.09"], true, false)
    ensures WellFormed(s)
    ensures BuildMapFromState(s) ==
      PlanMap([Course("61.03", 8), Course("61.08", -1), Course("61.09", -3)], Some([SuficienciaFlag]))
  {
    ScenarioWellFormed(s);
    ScenarioEntries(s);
    ScenarioCheckboxes();
  }

  lemma ScenarioWellFormed(s: LocalUserState)
    requires s == LocalUserState([Course("61.03", 8)], ["61.08"], ["61.09"], true, false)
    ensures WellFormed(s)
  {
    assert Ids(s.aprobadas) == {"61.03"};
    assert Elems(s.regularizadas) == {"61.08"};
    assert Elems(s.noAprobadas) == {"61.09"};
  }

  lemma ScenarioEntries(s: LocalUserState)
    requires s == LocalUserState([Course("61.03", 8)], ["61.08"], ["61.09"], true, false)
    requires WellFormed(s)
    ensures BuildMapFromState(s).materias == [Course("61.03", 8), Course("61.08", -1), Course("61.09", -3)]
  {
    CodecRoundTrip.DecodeWellFormed(s);
    assert WithNota(["61.08"], NotaRegularizada) == [Course("61.08", -1)];
    assert WithNota(["61.09"], NotaNoAprobada) == [Course("61.09", -3)];
  }

  lemma ScenarioCheckboxes()
    ensures CanonicalCheckboxes(true, false) == Some([SuficienciaFlag])
  {
    var checkboxes: seq<string> := [SuficienciaFlag];
    assert checkboxes + [] == checkboxes;
  }
}
