/** How the encoder and the decoder of the state codec compose: the decoder's
    output encodes back to the canonical form of the state, so well-formed
    states survive a save/load cycle exactly and every decoded map is a fixed
    point of the cycle. */
module CodecRoundTrip {
  import opened Wrappers
  import opened UserType
  import opened StateCodec

  // ---------------------------------------------------------------------------
  // The passes over a concatenation of entry lists.

  lemma {:induction false} ApprovedAppend(xs: seq<Course>, ys: seq<Course>)
    ensures Approved(xs + ys) == Approved(xs) + Approved(ys)
  {
    if |xs| == 0 {
      assert xs + ys == ys;
    } else {
      assert (xs + ys)[0] == xs[0];
      assert (xs + ys)[1..] == xs[1..] + ys;
      ApprovedAppend(xs[1..], ys);
    }
  }

  lemma {:induction false} ApprovedKeepsValid(xs: seq<Course>)
    requires forall c :: c in xs ==> c.id != "" && c.nota >= 0
    ensures Approved(xs) == xs
  {
    if |xs| > 0 {
      assert xs[0] in xs;
      ApprovedKeepsValid(xs[1..]);
      assert xs == [xs[0]] + xs[1..];
    }
  }

  lemma ApprovedSkipsNegative(ids: seq<string>, nota: int)
    requires nota < 0
    ensures Approved(WithNota(ids, nota)) == []
  {
    var r := Approved(WithNota(ids, nota));
    if |r| > 0 {
      assert r[0] in WithNota(ids, nota);
      WithNotaContents(ids, nota);
    }
  }

  lemma {:induction false} RegularizedAppend(xs: seq<Course>, ys: seq<Course>, seen: set<string>)
    ensures Regularized(xs + ys, seen) ==
      Regularized(xs, seen) + Regularized(ys, seen + Elems(Regularized(xs, seen)))
  {
    if |xs| == 0 {
      assert xs + ys == ys;
      assert seen + Elems([]) == seen;
    } else {
      var c := xs[0];
      assert (xs + ys)[0] == c;
      assert (xs + ys)[1..] == xs[1..] + ys;
      if c.id == "" || c.id in seen {
        RegularizedAppend(xs[1..], ys, seen);
      } else if c.nota == NotaRegularizada {
        var rest := Regularized(xs[1..], seen + {c.id});
        RegularizedAppend(xs[1..], ys, seen + {c.id});
        assert Elems([c.id] + rest) == {c.id} + Elems(rest);
        assert seen + {c.id} + Elems(rest) == seen + Elems([c.id] + rest);
      } else {
        RegularizedAppend(xs[1..], ys, seen);
      }
    }
  }

  lemma RegularizedNone(xs: seq<Course>, seen: set<string>)
    requires forall c :: c in xs ==> c.id in seen || c.nota != NotaRegularizada
    ensures Regularized(xs, seen) == []
  {
  }

  lemma {:induction false} RegularizedTagged(ids: seq<string>, seen: set<string>)
    requires forall id :: id in ids ==> id != ""
    ensures Regularized(WithNota(ids, NotaRegularizada), seen) == FirstUnseen(ids, seen)
  {
    if |ids| > 0 {
      var w := WithNota(ids, NotaRegularizada);
      assert w[0] == Course(ids[0], NotaRegularizada);
      assert w[1..] == WithNota(ids[1..], NotaRegularizada);
      assert ids[0] in ids;
      assert forall id :: id in ids[1..] ==> id in ids;
      if ids[0] in seen {
        RegularizedTagged(ids[1..], seen);
      } else {
        RegularizedTagged(ids[1..], seen + {ids[0]});
      }
    }
  }

  lemma {:induction false} NotApprovedAppend(xs: seq<Course>, ys: seq<Course>, seen: set<string>)
    ensures NotApproved(xs + ys, seen) == NotApproved(xs, seen) + NotApproved(ys, seen)
  {
    if |xs| == 0 {
      assert xs + ys == ys;
    } else {
      assert (xs + ys)[0] == xs[0];
      assert (xs + ys)[1..] == xs[1..] + ys;
      NotApprovedAppend(xs[1..], ys, seen);
    }
  }

  lemma NotApprovedNone(xs: seq<Course>, seen: set<string>)
    requires forall c :: c in xs ==> c.id in seen
    ensures NotApproved(xs, seen) == []
  {
  }

  lemma {:induction false} NotApprovedTagged(ids: seq<string>, nota: int, seen: set<string>)
    requires forall id :: id in ids ==> id != "" && id !in seen
    ensures NotApproved(WithNota(ids, nota), seen) == ids
  {
    if |ids| > 0 {
      var w := WithNota(ids, nota);
      assert w[0] == Course(ids[0], nota);
      assert w[1..] == WithNota(ids[1..], nota);
      assert ids[0] in ids;
      assert forall id :: id in ids[1..] ==> id in ids;
      NotApprovedTagged(ids[1..], nota, seen);
      assert ids == [ids[0]] + ids[1..];
    }
  }

  /** When there are no repeated ids in the map, pass 3 repeats nothing. */
  lemma {:induction false} NotApprovedDistinct(ms: seq<Course>, seen: set<string>)
    requires DistinctIds(ms)
    ensures Distinct(NotApproved(ms, seen))
  {
    if |ms| > 0 {
      NotApprovedDistinct(ms[1..], seen);
      var rest := NotApproved(ms[1..], seen);
      assert ms[0].id !in rest;
    }
  }

  // ---------------------------------------------------------------------------
  // FirstUnseen.

  lemma DistinctTail(xs: seq<string>)
    requires Distinct(xs) && |xs| > 0
    ensures Distinct(xs[1..]) && xs[0] !in xs[1..]
  {
  }

  /** A list without repeats and without seen ids passes through unchanged. */
  lemma {:induction false} FirstUnseenKeeps(xs: seq<string>, seen: set<string>)
    requires Distinct(xs)
    requires forall x :: x in xs ==> x !in seen
    ensures FirstUnseen(xs, seen) == xs
  {
    if |xs| > 0 {
      DistinctTail(xs);
      assert forall x :: x in xs[1..] ==> x in xs;
      FirstUnseenKeeps(xs[1..], seen + {xs[0]});
      assert xs == [xs[0]] + xs[1..];
    }
  }

  lemma FirstUnseenIdempotent(xs: seq<string>, seen: set<string>)
    ensures FirstUnseen(FirstUnseen(xs, seen), seen) == FirstUnseen(xs, seen)
  {
    FirstUnseenKeeps(FirstUnseen(xs, seen), seen);
  }

  // ---------------------------------------------------------------------------
  // The round trips.

  /** The entries the decoder emits, as three lists. */
  lemma DecodedEntries(s: LocalUserState)
    ensures var seen := Ids(s.aprobadas);
      BuildMapFromState(s).materias ==
        s.aprobadas
        + WithNota(FirstUnseen(s.regularizadas, seen), NotaRegularizada)
        + WithNota(FirstUnseen(s.noAprobadas, seen + Elems(s.regularizadas)), NotaNoAprobada)
  {
  }

  lemma EncodeAfterDecodeApproved(s: LocalUserState)
    requires forall c :: c in s.aprobadas ==> c.id != "" && c.nota >= 0
    ensures BuildStateFromMap(BuildMapFromState(s)).aprobadas == s.aprobadas
  {
    var seen := Ids(s.aprobadas);
    var regs := FirstUnseen(s.regularizadas, seen);
    var noAps := FirstUnseen(s.noAprobadas, seen + Elems(s.regularizadas));
    var a := s.aprobadas;
    var r := WithNota(regs, NotaRegularizada);
    var n := WithNota(noAps, NotaNoAprobada);
    DecodedEntries(s);
    ApprovedAppend(a + r, n);
    ApprovedAppend(a, r);
    ApprovedKeepsValid(a);
    ApprovedSkipsNegative(regs, NotaRegularizada);
    ApprovedSkipsNegative(noAps, NotaNoAprobada);
  }

  lemma EncodeAfterDecodeRegularized(s: LocalUserState)
    requires forall id :: id in s.regularizadas ==> id != ""
    ensures var seen := Ids(s.aprobadas);
      Regularized(BuildMapFromState(s).materias, seen) == FirstUnseen(s.regularizadas, seen)
  {
    var seen := Ids(s.aprobadas);
    var regs := FirstUnseen(s.regularizadas, seen);
    var noAps := FirstUnseen(s.noAprobadas, seen + Elems(s.regularizadas));
    var a := s.aprobadas;
    var r := WithNota(regs, NotaRegularizada);
    var n := WithNota(noAps, NotaNoAprobada);
    DecodedEntries(s);
    WithNotaContents(noAps, NotaNoAprobada);
    RegularizedAppend(a + r, n, seen);
    RegularizedAppend(a, r, seen);
    RegularizedNone(a, seen);
    assert seen + Elems([]) == seen;
    RegularizedTagged(regs, seen);
    FirstUnseenIdempotent(s.regularizadas, seen);
    assert Regularized(a + r, seen) == regs;
    RegularizedNone(n, seen + Elems(regs));
  }

  lemma EncodeAfterDecodeNotApproved(s: LocalUserState)
    requires forall id :: id in s.noAprobadas ==> id != ""
    ensures var seen := Ids(s.aprobadas);
      var regs := FirstUnseen(s.regularizadas, seen);
      NotApproved(BuildMapFromState(s).materias, seen + Elems(regs))
        == FirstUnseen(s.noAprobadas, seen + Elems(s.regularizadas))
  {
    var seen := Ids(s.aprobadas);
    var regs := FirstUnseen(s.regularizadas, seen);
    var noAps := FirstUnseen(s.noAprobadas, seen + Elems(s.regularizadas));
    var a := s.aprobadas;
    var r := WithNota(regs, NotaRegularizada);
    var n := WithNota(noAps, NotaNoAprobada);
    DecodedEntries(s);
    WithNotaContents(regs, NotaRegularizada);
    var seen3 := seen + Elems(regs);
    NotApprovedAppend(a + r, n, seen3);
    NotApprovedAppend(a, r, seen3);
    NotApprovedNone(a, seen3);
    NotApprovedNone(r, seen3);
    NotApprovedTagged(noAps, NotaNoAprobada, seen3);
  }

  /** Encoding what the decoder emits gives back the state, minus the repeats
      and already-claimed ids the decoder skipped. */
  lemma EncodeAfterDecode(s: LocalUserState)
    requires forall c :: c in s.aprobadas ==> c.id != "" && c.nota >= 0
    requires forall id :: id in s.regularizadas ==> id != ""
    requires forall id :: id in s.noAprobadas ==> id != ""
    ensures BuildStateFromMap(BuildMapFromState(s)) == Canonical(s)
  {
    EncodeAfterDecodeApproved(s);
    EncodeAfterDecodeRegularized(s);
    EncodeAfterDecodeNotApproved(s);
  }

  /** The decoder reads only the canonical part of a state. */
  lemma DecodeCanonical(s: LocalUserState)
    ensures BuildMapFromState(Canonical(s)) == BuildMapFromState(s)
  {
    var seen := Ids(s.aprobadas);
    var regs := FirstUnseen(s.regularizadas, seen);
    FirstUnseenIdempotent(s.regularizadas, seen);
    assert seen + Elems(regs) == seen + Elems(s.regularizadas);
    FirstUnseenIdempotent(s.noAprobadas, seen + Elems(s.regularizadas));
  }

  /** The decoder writes a well-formed state out bucket by bucket, skipping
      nothing. */
  lemma DecodeWellFormed(s: LocalUserState)
    requires WellFormed(s)
    ensures BuildMapFromState(s).materias ==
      s.aprobadas + WithNota(s.regularizadas, NotaRegularizada) + WithNota(s.noAprobadas, NotaNoAprobada)
  {
    DecodedEntries(s);
    var seen := Ids(s.aprobadas);
    FirstUnseenKeeps(s.regularizadas, seen);
    FirstUnseenKeeps(s.noAprobadas, seen + Elems(s.regularizadas));
  }

  /** The encoder reads the checkboxes only for the two flags. */
  lemma EncodeSameEntries(m1: PlanMap, m2: PlanMap)
    requires m1.materias == m2.materias
    ensures BuildStateFromMap(m1) == BuildStateFromMap(m2).(
      ingles := InglesFlag in Checkboxes(m1) || SuficienciaFlag in Checkboxes(m1),
      trabajoProfesional := TrabajoProfesionalFlag in Checkboxes(m1))
  {
  }

  /** A well-formed state is stored and read back exactly. */
  lemma RoundTrip(s: LocalUserState)
    requires WellFormed(s)
    ensures BuildStateFromMap(BuildMapFromState(s)) == s
  {
    EncodeAfterDecode(s);
    var seen := Ids(s.aprobadas);
    FirstUnseenKeeps(s.regularizadas, seen);
    FirstUnseenKeeps(s.noAprobadas, seen + Elems(s.regularizadas));
  }

  /** The canonical form of any state with present ids and non-negative
      approved grades is well formed. */
  lemma CanonicalWellFormed(s: LocalUserState)
    requires forall c :: c in s.aprobadas ==> c.id != "" && c.nota >= 0
    requires forall id :: id in s.regularizadas ==> id != ""
    requires forall id :: id in s.noAprobadas ==> id != ""
    ensures WellFormed(Canonical(s))
  {
  }

  /** A map that went through one save/load cycle goes through the next one
      unchanged. */
  lemma Stable(m: PlanMap)
    ensures BuildMapFromState(BuildStateFromMap(BuildMapFromState(BuildStateFromMap(m))))
         == BuildMapFromState(BuildStateFromMap(m))
  {
    var s := BuildStateFromMap(m);
    EncodeAfterDecode(s);
    DecodeCanonical(s);
  }

  /** Saving, loading and saving again stores the canonical form of the first
      save; when no course id is repeated in the map this is the first save
      itself. */
  lemma SaveLoadSave(m: PlanMap)
    ensures BuildStateFromMap(BuildMapFromState(BuildStateFromMap(m))) == Canonical(BuildStateFromMap(m))
    ensures DistinctIds(m.materias) ==>
      BuildStateFromMap(BuildMapFromState(BuildStateFromMap(m))) == BuildStateFromMap(m)
  {
    var s := BuildStateFromMap(m);
    EncodeAfterDecode(s);
    if DistinctIds(m.materias) {
      NotApprovedDistinct(m.materias, Ids(s.aprobadas) + Elems(s.regularizadas));
      RoundTrip(s);
    }
  }

  /** A not-approved course listed twice is stored twice but read back once, so
      the second save differs from the first. */
  lemma RepeatedNotApprovedCollapses()
    ensures var m := PlanMap([Course("61.09", -3), Course("61.09", -3)], None);
      && BuildStateFromMap(m).noAprobadas == ["61.09", "61.09"]
      && BuildStateFromMap(BuildMapFromState(BuildStateFromMap(m))).noAprobadas == ["61.09"]
  {
    var c := Course("61.09", -3);
    var m := PlanMap([c, c], None);
    var twice: seq<string> := ["61.09", "61.09"];
    var s := BuildStateFromMap(m);
    RepeatedStored(c, m, s);
    assert s.noAprobadas == twice;
    EncodeAfterDecode(s);
    var seen := Ids(s.aprobadas) + Elems(s.regularizadas);
    assert seen == {};
    assert twice[1..] == ["61.09"];
    assert FirstUnseen(["61.09"], {"61.09"}) == [];
    assert FirstUnseen(twice, {}) == ["61.09"];
  }

  lemma RepeatedStored(c: Course, m: PlanMap, s: LocalUserState)
    requires c == Course("61.09", -3) && m == PlanMap([c, c], None) && s == BuildStateFromMap(m)
    ensures s.aprobadas == [] && s.regularizadas == [] && s.noAprobadas == ["61.09", "61.09"]
  {
    assert Approved([c]) == [];
    assert Approved(m.materias) == [];
    assert Ids([]) == {} && Elems([]) == {};
    RegularizedNone(m.materias, {});
    assert NotApproved([c], {}) == ["61.09"];
    assert NotApproved(m.materias, {}) == ["61.09", "61.09"];
    assert s.aprobadas == Approved(m.materias);
    assert s.regularizadas == Regularized(m.materias, {}) == [];
    assert Ids(s.aprobadas) + Elems(s.regularizadas) == {};
    assert s.noAprobadas == NotApproved(m.materias, {});
  }
}
