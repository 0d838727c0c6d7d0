/** The leader's dashboard: KPI totals over the project summaries and the rework badge. */
module LiderDashboard {
  import opened Js

  datatype Project = Project(proyecto: string, horasTotal: int, avancePromedio: int, reprocesos: int)

  const MockGlobalData: seq<Project> := [
    Project("Fragata F-110", 1250, 75, 8),
    Project("Patrullera CPV-46", 890, 92, 3),
    Project("Corbeta ARC", 1450, 45, 12)
  ]

  datatype Estado = Estado(name: string, value: int)

  const EstadosData: seq<Estado> := [Estado("Completadas", 45), Estado("En Progreso", 35), Estado("Bloqueadas", 20)]

  function HorasOf(p: Project): int { p.horasTotal }
  function AvanceOf(p: Project): int { p.avancePromedio }
  function ReprocesosOf(p: Project): int { p.reprocesos }

  /** `reduce((s, i) => s + f(i), 0)`, left to right. */
  function SumBy(ps: seq<Project>, f: Project -> int): int {
    if ps == [] then 0 else SumBy(ps[..|ps| - 1], f) + f(ps[|ps| - 1])
  }

  /** `Math.round(a / n)` for a positive count: the nearest integer, halves upward. */
  function RoundDiv(a: int, n: int): (r: int)
    requires n > 0
    ensures (2 * r - 1) * n <= 2 * a < (2 * r + 1) * n
  {
    (2 * a + n) / (2 * n)
  }

  /** `promedioAvance`: NaN for an empty list, where the division is 0 / 0. */
  function PromedioAvance(ps: seq<Project>): Number {
    if ps == [] then NaN else Int(RoundDiv(SumBy(ps, AvanceOf), |ps|))
  }

  datatype Kpis = Kpis(totalHoras: int, promedioAvance: Number, totalReprocesos: int, totalProyectos: nat)

  function ComputeKpis(ps: seq<Project>): Kpis {
    Kpis(SumBy(ps, HorasOf), PromedioAvance(ps), SumBy(ps, ReprocesosOf), |ps|)
  }

  /** For the mock data: 3590 hours, a 71 % average, 23 reworks, 3 projects. */
  lemma MockKpis()
    ensures ComputeKpis(MockGlobalData) == Kpis(3590, Int(71), 23, 3)
  {
    var ps := MockGlobalData;
    assert ps[..3] == ps;
    assert ps[..3][..2] == ps[..2] && ps[..2][..1] == ps[..1] && ps[..1][..0] == [];
    assert SumBy(ps[..1], AvanceOf) == 75 && SumBy(ps[..2], AvanceOf) == 167 && SumBy(ps, AvanceOf) == 212;
    assert SumBy(ps[..1], HorasOf) == 1250 && SumBy(ps[..2], HorasOf) == 2140 && SumBy(ps, HorasOf) == 3590;
    assert SumBy(ps[..1], ReprocesosOf) == 8 && SumBy(ps[..2], ReprocesosOf) == 11 && SumBy(ps, ReprocesosOf) == 23;
    assert RoundDiv(212, 3) == 71;
  }

  /** The average lies within the range of the projects' own averages. */
  lemma PromedioWithinRange(ps: seq<Project>, lo: int, hi: int)
    requires ps != []
    requires forall i :: 0 <= i < |ps| ==> lo <= ps[i].avancePromedio <= hi
    ensures lo <= PromedioAvance(ps).v <= hi
  {
    SumBounds(ps, lo, hi);
    var total := SumBy(ps, AvanceOf);
    RoundBetween(total, |ps|, lo, hi, RoundDiv(total, |ps|));
  }

  lemma RoundBetween(s: int, n: int, lo: int, hi: int, r: int)
    requires n > 0 && lo * n <= s <= hi * n
    requires (2 * r - 1) * n <= 2 * s < (2 * r + 1) * n
    ensures lo <= r <= hi
  {
    if r > hi {
      MulAtLeast(2 * r - 1 - 2 * hi, n);
    }
    if r < lo {
      MulAtLeast(2 * lo - 2 * r - 1, n);
    }
  }

  lemma MulAtLeast(k: int, n: int)
    requires k >= 1 && n > 0
    ensures k * n >= n
  {
  }

  lemma {:induction false} SumBounds(ps: seq<Project>, lo: int, hi: int)
    requires forall i :: 0 <= i < |ps| ==> lo <= ps[i].avancePromedio <= hi
    ensures lo * |ps| <= SumBy(ps, AvanceOf) <= hi * |ps|
  {
    if ps != [] {
      SumBounds(ps[..|ps| - 1], lo, hi);
    }
  }

  /** The colour of a project's rework count. */
  datatype Badge = Red | Yellow | Green

  function ReworkBadge(reprocesos: int): Badge {
    if reprocesos > 10 then Red else if reprocesos > 5 then Yellow else Green
  }

  lemma ReworkBadgeThresholds(reprocesos: int)
    ensures ReworkBadge(reprocesos) == Red <==> reprocesos > 10
    ensures ReworkBadge(reprocesos) == Yellow <==> 6 <= reprocesos <= 10
    ensures ReworkBadge(reprocesos) == Green <==> reprocesos <= 5
  {
  }

  /** The badge never gets milder as the count grows. */
  lemma ReworkBadgeMonotone(a: int, b: int)
    requires a <= b
    ensures ReworkBadge(a) == Red ==> ReworkBadge(b) == Red
    ensures ReworkBadge(b) == Green ==> ReworkBadge(a) == Green
  {
  }

  /** The shares of the status chart add up to 100. */
  lemma EstadosSumToHundred()
    ensures EstadosData[0].value + EstadosData[1].value + EstadosData[2].value == 100 && |EstadosData| == 3
  {
  }
}
