/** The state codec of the current store: the conversion between the plan map
    the UI edits (a list of course entries and checkbox names) and the bucketed
    state that is persisted per student. */
module StateCodec {
  import opened Wrappers
  import opened UserType

  /** The persisted state: approved entries with their grades, the ids of
      regularised courses, the ids of not-approved courses, and two flags. */
  datatype LocalUserState = LocalUserState(
    aprobadas: seq<Course>,
    regularizadas: seq<string>,
    noAprobadas: seq<string>,
    ingles: bool,
    trabajoProfesional: bool)

  const DefaultState := LocalUserState([], [], [], false, false)

  /** Grades the decoder writes for the two non-approved buckets. */
  const NotaRegularizada := -1
  const NotaNoAprobada := -3

  /** Checkbox names: the historical language flag, the current one, and the
      professional-work flag. */
  const InglesFlag := "Ingles"
  const SuficienciaFlag := "Prueba de suficiencia"
  const TrabajoProfesionalFlag := "Trabajo profesional"

  function Ids(cs: seq<Course>): set<string> {
    set c | c in cs :: c.id
  }

  function Elems(xs: seq<string>): set<string> {
    set x | x in xs
  }

  predicate Distinct(xs: seq<string>) {
    forall i, j :: 0 <= i < j < |xs| ==> xs[i] != xs[j]
  }

  /** Some entry of `ms` approves `id`. */
  predicate Approves(ms: seq<Course>, id: string) {
    exists c :: c in ms && c.id == id && c.nota >= 0
  }

  /** Some entry of `ms` marks `id` regularised. */
  predicate Regularizes(ms: seq<Course>, id: string) {
    exists c :: c in ms && c.id == id && c.nota == NotaRegularizada
  }

  /** Some entry of `ms` has id `id`. */
  predicate Mentions(ms: seq<Course>, id: string) {
    exists c :: c in ms && c.id == id
  }

  /** The checkbox list, an absent one read as empty. */
  function Checkboxes(m: PlanMap): seq<string> {
    m.checkboxes.GetOr([])
  }

  // ---------------------------------------------------------------------------
  // Encoding: three passes over the entries, each skipping ids claimed before.

  /** Pass 1: every entry with an id and a non-negative grade, in map order. */
  function Approved(ms: seq<Course>): (r: seq<Course>)
    ensures forall c :: c in r <==> c in ms && c.id != "" && c.nota >= 0
    ensures |r| <= |ms|
  {
    if |ms| == 0 then []
    else
      assert forall c :: c in ms <==> c == ms[0] || c in ms[1..];
      (if ms[0].id != "" && ms[0].nota >= 0 then [ms[0]] else []) + Approved(ms[1..])
  }

  /** Pass 2: the ids marked -1 that are not yet `seen`; each id is added to
      `seen` when it is taken, so it is taken once. */
  function Regularized(ms: seq<Course>, seen: set<string>): (r: seq<string>)
    ensures forall id :: id in r <==> id != "" && id !in seen && Regularizes(ms, id)
    ensures Distinct(r)
  {
    if |ms| == 0 then []
    else
      assert forall c :: c in ms <==> c == ms[0] || c in ms[1..];
      if ms[0].id == "" || ms[0].id in seen then Regularized(ms[1..], seen)
      else if ms[0].nota == NotaRegularizada then [ms[0].id] + Regularized(ms[1..], seen + {ms[0].id})
      else Regularized(ms[1..], seen)
  }

  /** Pass 3: the ids not `seen`, whatever their grade; `seen` does not grow
      here, so an id repeated in the map is repeated in the result. */
  function NotApproved(ms: seq<Course>, seen: set<string>): (r: seq<string>)
    ensures forall id :: id in r <==> id != "" && id !in seen && Mentions(ms, id)
  {
    if |ms| == 0 then []
    else
      assert forall c :: c in ms <==> c == ms[0] || c in ms[1..];
      (if ms[0].id != "" && ms[0].id !in seen then [ms[0].id] else []) + NotApproved(ms[1..], seen)
  }

  /** `buildStateFromMap`: bucket the entries by best known status (approved,
      then regularised, then not approved) and map the checkbox names to the
      two flags. */
  function BuildStateFromMap(m: PlanMap): (s: LocalUserState)
    ensures forall c :: c in s.aprobadas <==> c in m.materias && c.id != "" && c.nota >= 0
    ensures forall id :: id in s.regularizadas <==>
      id != "" && Regularizes(m.materias, id) && !Approves(m.materias, id)
    ensures forall id :: id in s.noAprobadas <==>
      id != "" && Mentions(m.materias, id) && !Approves(m.materias, id) && !Regularizes(m.materias, id)
    ensures Distinct(s.regularizadas)
    ensures Ids(s.aprobadas) !! Elems(s.regularizadas)
    ensures Ids(s.aprobadas) !! Elems(s.noAprobadas)
    ensures Elems(s.regularizadas) !! Elems(s.noAprobadas)
    ensures forall id :: id != "" && Mentions(m.materias, id) ==>
      id in Ids(s.aprobadas) || id in s.regularizadas || id in s.noAprobadas
    ensures s.ingles <==> InglesFlag in Checkboxes(m) || SuficienciaFlag in Checkboxes(m)
    ensures s.trabajoProfesional <==> TrabajoProfesionalFlag in Checkboxes(m)
  {
    var aprobadas := Approved(m.materias);
    var seen := Ids(aprobadas);
    assert forall id :: id in seen <==> id != "" && Approves(m.materias, id) by {
      forall id ensures id in seen <==> id != "" && Approves(m.materias, id) {
        if id != "" && Approves(m.materias, id) {
          var c :| c in m.materias && c.id == id && c.nota >= 0;
          assert c in aprobadas;
        }
      }
    }
    var regularizadas := Regularized(m.materias, seen);
    var noAprobadas := NotApproved(m.materias, seen + Elems(regularizadas));
    var checkboxes := Checkboxes(m);
    LocalUserState(
      aprobadas,
      regularizadas,
      noAprobadas,
      InglesFlag in checkboxes || SuficienciaFlag in checkboxes,
      TrabajoProfesionalFlag in checkboxes)
  }

  // ---------------------------------------------------------------------------
  // Decoding.

  /** The ids of `ids` not yet `seen`, each taken at its first occurrence. */
  function FirstUnseen(ids: seq<string>, seen: set<string>): (r: seq<string>)
    ensures forall id :: id in r <==> id in ids && id !in seen
    ensures Distinct(r)
  {
    if |ids| == 0 then []
    else
      assert forall id :: id in ids <==> id == ids[0] || id in ids[1..];
      if ids[0] in seen then FirstUnseen(ids[1..], seen)
      else [ids[0]] + FirstUnseen(ids[1..], seen + {ids[0]})
  }

  /** One entry per id, all with grade `nota`. */
  function WithNota(ids: seq<string>, nota: int): (r: seq<Course>)
    ensures |r| == |ids|
    ensures forall i :: 0 <= i < |ids| ==> r[i] == Course(ids[i], nota)
  {
    if |ids| == 0 then [] else [Course(ids[0], nota)] + WithNota(ids[1..], nota)
  }

  /** The checkbox list written back: only the current names, and no list at
      all when neither flag is set. */
  function CanonicalCheckboxes(ingles: bool, trabajoProfesional: bool): (r: Option<seq<string>>)
    ensures r.None? <==> !ingles && !trabajoProfesional
    ensures r.Some? ==> forall f :: f in r.value ==> f == SuficienciaFlag || f == TrabajoProfesionalFlag
    ensures r.Some? ==> (SuficienciaFlag in r.value <==> ingles)
    ensures r.Some? ==> (TrabajoProfesionalFlag in r.value <==> trabajoProfesional)
    ensures InglesFlag !in r.GetOr([])
  {
    var checkboxes :=
      (if ingles then [SuficienciaFlag] else []) + (if trabajoProfesional then [TrabajoProfesionalFlag] else []);
    if |checkboxes| > 0 then Some(checkboxes) else None
  }

  /** No two entries share an id. */
  predicate DistinctIds(cs: seq<Course>) {
    forall i, j :: 0 <= i < j < |cs| ==> cs[i].id != cs[j].id
  }

  lemma WithNotaContents(ids: seq<string>, nota: int)
    ensures forall c :: c in WithNota(ids, nota) <==> c.id in ids && c.nota == nota
    ensures Ids(WithNota(ids, nota)) == Elems(ids)
    ensures Distinct(ids) ==> DistinctIds(WithNota(ids, nota))
  {
    var r := WithNota(ids, nota);
    forall c: Course | c.id in ids && c.nota == nota ensures c in r {
      var i :| 0 <= i < |ids| && ids[i] == c.id;
      assert r[i] == c;
    }
    forall id | id in Elems(ids) ensures id in Ids(r) {
      assert Course(id, nota) in r;
    }
  }

  lemma DistinctIdsAppend(a: seq<Course>, b: seq<Course>)
    requires DistinctIds(a) && DistinctIds(b) && Ids(a) !! Ids(b)
    ensures DistinctIds(a + b)
  {
    var r := a + b;
    forall i, j | 0 <= i < j < |r| ensures r[i].id != r[j].id {
      if j < |a| {
      } else if i >= |a| {
        assert r[i] == b[i - |a|] && r[j] == b[j - |a|];
      } else {
        assert r[i] == a[i] && r[j] == b[j - |a|];
        assert r[i].id in Ids(a) && r[j].id in Ids(b);
      }
    }
  }

  /** The two lists of ids with grades -1 and -3, one after the other: an id
      appears at most once, and never when it was claimed by an earlier list. */
  function Emitted(regularizadas: seq<string>, noAprobadas: seq<string>, seen: set<string>): (r: seq<Course>)
    ensures forall c :: c in r ==> c.nota in {NotaRegularizada, NotaNoAprobada} && c.id !in seen
    ensures forall id :: Course(id, NotaRegularizada) in r <==> id in regularizadas && id !in seen
    ensures forall id :: Course(id, NotaNoAprobada) in r <==>
      id in noAprobadas && id !in seen && id !in regularizadas
    ensures DistinctIds(r)
    ensures forall i, j :: 0 <= i < j < |r| && r[i].nota == NotaNoAprobada ==> r[j].nota == NotaNoAprobada
  {
    var regs := FirstUnseen(regularizadas, seen);
    var noAps := FirstUnseen(noAprobadas, seen + Elems(regularizadas));
    WithNotaContents(regs, NotaRegularizada);
    WithNotaContents(noAps, NotaNoAprobada);
    DistinctIdsAppend(WithNota(regs, NotaRegularizada), WithNota(noAps, NotaNoAprobada));
    WithNota(regs, NotaRegularizada) + WithNota(noAps, NotaNoAprobada)
  }

  /** `buildMapFromState`: the approved entries with their grades, then each
      regularised id not yet emitted with grade -1, then each not-approved id
      not yet emitted with grade -3. */
  function BuildMapFromState(s: LocalUserState): (m: PlanMap)
    ensures |m.materias| >= |s.aprobadas| && m.materias[..|s.aprobadas|] == s.aprobadas
    ensures forall c :: c in m.materias[|s.aprobadas|..] ==>
      c.nota in {NotaRegularizada, NotaNoAprobada} && c.id !in Ids(s.aprobadas)
    ensures forall id :: Course(id, NotaRegularizada) in m.materias[|s.aprobadas|..] <==>
      id in s.regularizadas && id !in Ids(s.aprobadas)
    ensures forall id :: Course(id, NotaNoAprobada) in m.materias[|s.aprobadas|..] <==>
      id in s.noAprobadas && id !in Ids(s.aprobadas) && id !in s.regularizadas
    ensures DistinctIds(m.materias[|s.aprobadas|..])
    ensures forall i, j :: |s.aprobadas| <= i < j < |m.materias| && m.materias[i].nota == NotaNoAprobada ==>
      m.materias[j].nota == NotaNoAprobada
    ensures m.checkboxes == CanonicalCheckboxes(s.ingles, s.trabajoProfesional)
  {
    var emitted := Emitted(s.regularizadas, s.noAprobadas, Ids(s.aprobadas));
    var materias := s.aprobadas + emitted;
    assert materias[|s.aprobadas|..] == emitted;
    assert forall k :: |s.aprobadas| <= k < |materias| ==> materias[k] == emitted[k - |s.aprobadas|];
    PlanMap(materias, CanonicalCheckboxes(s.ingles, s.trabajoProfesional))
  }

  // ---------------------------------------------------------------------------
  // Well-formed states and the canonical form the decoder reads.

  /** A state the codec reproduces exactly: approved grades are non-negative,
      ids are present, the non-approved buckets have no repeats, and no id is
      in two buckets. */
  predicate WellFormed(s: LocalUserState) {
    && (forall c :: c in s.aprobadas ==> c.id != "" && c.nota >= 0)
    && (forall id :: id in s.regularizadas ==> id != "")
    && (forall id :: id in s.noAprobadas ==> id != "")
    && Distinct(s.regularizadas)
    && Distinct(s.noAprobadas)
    && Ids(s.aprobadas) !! Elems(s.regularizadas)
    && Ids(s.aprobadas) !! Elems(s.noAprobadas)
    && Elems(s.regularizadas) !! Elems(s.noAprobadas)
  }

  /** The state with the repeats and the already-claimed ids that the decoder
      skips removed from its non-approved buckets. */
  function Canonical(s: LocalUserState): LocalUserState {
    var seen := Ids(s.aprobadas);
    s.(regularizadas := FirstUnseen(s.regularizadas, seen),
       noAprobadas := FirstUnseen(s.noAprobadas, seen + Elems(s.regularizadas)))
  }
}
