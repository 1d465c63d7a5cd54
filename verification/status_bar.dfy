/** The footer's progress figures: how many courses are approved out of the
    courses proper, the share of mandatory courses approved as a whole
    percentage, and the bar drawn for each credit checkbox. */
module StatusBar {

  /** A node of the plan graph, reduced to what the footer reads. */
  datatype Node = Node(categoria: string, aprobada: bool, nota: int)

  /** Categories that are not courses of the degree proper: the common first
      cycle, the pre-university course and the final-project tracks. */
  const NonMateriaCategorias: set<string> :=
    {"CBC", "CPU", "Fin de Carrera", "Fin de Carrera (Obligatorio)"}

  predicate IsMateria(n: Node) {
    n.categoria !in NonMateriaCategorias
  }

  /** `materias`: the nodes left after dropping the non-course categories, in
      graph order. */
  function Materias(nodes: seq<Node>): (r: seq<Node>)
    ensures forall n :: n in r <==> n in nodes && IsMateria(n)
    ensures |r| <= |nodes|
    ensures (forall n :: n in nodes ==> IsMateria(n)) ==> r == nodes
  {
    if nodes == [] then []
    else
      assert forall n :: n in nodes <==> n == nodes[0] || n in nodes[1..];
      (if IsMateria(nodes[0]) then [nodes[0]] else []) + Materias(nodes[1..])
  }

  /** Filtering twice drops nothing more. */
  lemma MateriasIdempotent(nodes: seq<Node>)
    ensures Materias(Materias(nodes)) == Materias(nodes)
  {
  }

  /** The filter works node by node, so it distributes over concatenation. */
  lemma {:induction false} MateriasAppend(a: seq<Node>, b: seq<Node>)
    ensures Materias(a + b) == Materias(a) + Materias(b)
  {
    if a == [] {
      assert a + b == b;
    } else {
      assert (a + b)[1..] == a[1..] + b;
      MateriasAppend(a[1..], b);
    }
  }

  /** A node the count of approved courses counts: approved, and with a grade
      of at least 0. */
  predicate CountsAsAprobada(n: Node) {
    n.aprobada && n.nota >= 0
  }

  /** `materiasAprobadas`: how many of `materias` count as approved. */
  function MateriasAprobadas(materias: seq<Node>): (c: nat)
    ensures c <= |materias|
    ensures c == 0 <==> forall n :: n in materias ==> !CountsAsAprobada(n)
    ensures c == |materias| <==> forall n :: n in materias ==> CountsAsAprobada(n)
  {
    if materias == [] then 0
    else
      assert forall n :: n in materias <==> n == materias[0] || n in materias[1..];
      (if CountsAsAprobada(materias[0]) then 1 else 0) + MateriasAprobadas(materias[1..])
  }

  /** The count adds up over concatenation. */
  lemma {:induction false} MateriasAprobadasAppend(a: seq<Node>, b: seq<Node>)
    ensures MateriasAprobadas(a + b) == MateriasAprobadas(a) + MateriasAprobadas(b)
  {
    if a == [] {
      assert a + b == b;
    } else {
      assert (a + b)[1..] == a[1..] + b;
      MateriasAprobadasAppend(a[1..], b);
    }
  }

  /** Non-course nodes leave nothing behind. */
  lemma {:induction false} NonMateriasVanish(extra: seq<Node>)
    requires forall n :: n in extra ==> !IsMateria(n)
    ensures Materias(extra) == []
  {
    if extra != [] {
      assert extra[0] in extra;
      NonMateriasVanish(extra[1..]);
    }
  }

  /** "x de y": the approved count never exceeds the course count, and
      non-course nodes never add to either. */
  lemma StatusCounts(nodes: seq<Node>, extra: seq<Node>)
    requires forall n :: n in extra ==> !IsMateria(n)
    ensures MateriasAprobadas(Materias(nodes)) <= |Materias(nodes)|
    ensures Materias(nodes + extra) == Materias(nodes)
    ensures MateriasAprobadas(Materias(nodes + extra)) == MateriasAprobadas(Materias(nodes))
  {
    MateriasAppend(nodes, extra);
    NonMateriasVanish(extra);
    assert Materias(nodes) + [] == Materias(nodes);
  }

  /** `obligatoriasPercent`: `Math.round(aprobadas / total * 100)` in exact
      arithmetic, 0 when there are no mandatory courses. The result is the
      integer nearest to `100 * aprobadas / total`, a half rounded up. */
  function ObligatoriasPercent(aprobadas: nat, total: nat): (p: nat)
    ensures total == 0 ==> p == 0
    ensures total > 0 ==> 2 * total * p <= 200 * aprobadas + total < 2 * total * p + 2 * total
  {
    if total == 0 then 0
    else
      var n := 200 * aprobadas + total;
      var d := 2 * total;
      assert n == d * (n / d) + n % d;
      n / d
  }

  /** Multiplying by a positive factor preserves strict order, and so can be
      cancelled. */
  lemma MulCancel(d: int, x: int, y: int)
    requires d > 0 && d * x < d * y
    ensures x < y
  {
  }

  /** The rounding condition pins the percentage down: it is the only value
      satisfying it. */
  lemma PercentUnique(aprobadas: nat, total: nat, q: int)
    requires total > 0
    requires 2 * total * q <= 200 * aprobadas + total < 2 * total * q + 2 * total
    ensures q == ObligatoriasPercent(aprobadas, total)
  {
    var p := ObligatoriasPercent(aprobadas, total);
    var d := 2 * total;
    assert d * q < d * (p + 1);
    assert d * p < d * (q + 1);
    MulCancel(d, q, p + 1);
    MulCancel(d, p, q + 1);
  }

  /** The bar never overflows: with at most as many approved as there are
      mandatory courses the percentage is at most 100. */
  lemma PercentAtMost100(aprobadas: nat, total: nat)
    requires aprobadas <= total
    ensures ObligatoriasPercent(aprobadas, total) <= 100
  {
    if total > 0 {
      var p := ObligatoriasPercent(aprobadas, total);
      var d := 2 * total;
      assert 200 * aprobadas <= 200 * total;
      assert d * p < d * 101;
      MulCancel(d, p, 101);
    }
  }

  /** All approved reads 100 and none approved reads 0. */
  lemma PercentEnds(total: nat)
    requires total > 0
    ensures ObligatoriasPercent(total, total) == 100
    ensures ObligatoriasPercent(0, total) == 0
  {
    PercentUnique(total, total, 100);
    PercentUnique(0, total, 0);
  }

  /** Approving more mandatory courses never lowers the percentage. */
  lemma PercentMonotone(a: nat, b: nat, total: nat)
    requires a <= b
    ensures ObligatoriasPercent(a, total) <= ObligatoriasPercent(b, total)
  {
    if total > 0 {
      var p := ObligatoriasPercent(a, total);
      var q := ObligatoriasPercent(b, total);
      var d := 2 * total;
      assert 200 * a <= 200 * b;
      assert d * p < d * (q + 1);
      MulCancel(d, p, q + 1);
    }
  }

  /** The bar of a credit checkbox: full when ticked, empty otherwise. */
  function CheckboxProgress(check: bool): (v: int)
    ensures v == 100 <==> check
    ensures v == 0 <==> !check
  {
    if check then 100 else 0
  }
}
