/**
 * The progress-record template page: an in-memory list of progress records
 * ("avances"), each with its rework events ("reprocesos"). Both form handlers
 * build a new list from the old one; the page state is a value.
 */
module PlantillaAvance {
  import opened Js

  datatype Reproceso = Reproceso(
    id: int,
    numero: int,
    horasAdicionales: Number,
    motivo: string,
    fecha: string)

  datatype Avance = Avance(
    id: int,
    proyecto: string,
    swbs: string,
    actividad: string,
    horasInvertidas: Number,
    avanceMm: Number,
    totalMm: Number,
    estado: string,
    comentarios: string,
    fecha: string,
    reprocesos: seq<Reproceso>)

  /** The new-record form: each field holds the text typed into it. */
  datatype AvanceForm = AvanceForm(
    proyecto: string,
    swbs: string,
    actividad: string,
    horasInvertidas: string,
    avanceMm: string,
    totalMm: string,
    estado: string,
    comentarios: string)

  datatype ReprocesoForm = ReprocesoForm(horasAdicionales: string, motivo: string)

  /** The page's React state. `showReprocesoForm` is the id whose rework dialog is open. */
  datatype Page = Page(
    avances: seq<Avance>,
    showNewForm: bool,
    showReprocesoForm: Option<int>,
    newAvance: AvanceForm,
    newReproceso: ReprocesoForm)

  const EmptyAvanceForm := AvanceForm("", "", "", "", "", "", "En progreso", "")
  const EmptyReprocesoForm := ReprocesoForm("", "")

  const MockAvances: seq<Avance> := [
    Avance(1, "Fragata F-110", "SWB-001", "Diseño estructural del casco",
      Int(45), Int(850), Int(1200), "En progreso", "Avance según cronograma", "2024-01-15",
      [Reproceso(1, 1, Int(8), "Corrección de medidas según especificaciones", "2024-01-20")]),
    Avance(2, "Patrullera CPV-46", "SWB-002", "Outfitting eléctrico",
      Int(32), Int(650), Int(800), "Completado", "Finalizado exitosamente", "2024-01-10",
      [])
  ]

  const InitialPage := Page(MockAvances, false, None, EmptyAvanceForm, EmptyReprocesoForm)

  /** Rework events are numbered 1, 2, ... in the order they were added. */
  predicate Numbered(a: Avance) {
    forall j :: 0 <= j < |a.reprocesos| ==> a.reprocesos[j].numero == j + 1
  }

  predicate UniqueIds(avs: seq<Avance>) {
    forall i, j :: 0 <= i < j < |avs| ==> avs[i].id != avs[j].id
  }

  /** `avances.find(a => a.id === id)`, as an index. */
  function FindIndex(avs: seq<Avance>, id: int): (r: Option<nat>)
    ensures r.None? <==> forall i :: 0 <= i < |avs| ==> avs[i].id != id
    ensures r.Some? ==> r.value < |avs| && avs[r.value].id == id
    ensures r.Some? ==> forall i :: 0 <= i < r.value ==> avs[i].id != id
  {
    if avs == [] then None
    else if avs[0].id == id then Some(0)
    else match FindIndex(avs[1..], id)
      case None => None
      case Some(k) => Some(k + 1)
  }

  /**
   * handleSubmitAvance. `now` stands for Date.now() (the new id) and `today` for the
   * ISO date of the day.
   */
  function SubmitAvance(p: Page, now: int, today: string): (q: Page)
    ensures |q.avances| == |p.avances| + 1
    ensures q.avances[..|p.avances|] == p.avances
    ensures var a, f := q.avances[|p.avances|], p.newAvance;
      && a.id == now && a.fecha == today && a.reprocesos == []
      && a.proyecto == f.proyecto && a.swbs == f.swbs && a.actividad == f.actividad
      && a.estado == f.estado && a.comentarios == f.comentarios
      && a.horasInvertidas == ParseNumber(f.horasInvertidas)
      && a.avanceMm == ParseNumber(f.avanceMm)
      && a.totalMm == ParseNumber(f.totalMm)
    ensures q.newAvance == EmptyAvanceForm && q.newAvance.estado == "En progreso"
    ensures !q.showNewForm
    ensures q.showReprocesoForm == p.showReprocesoForm && q.newReproceso == p.newReproceso
  {
    var f := p.newAvance;
    var avance := Avance(now, f.proyecto, f.swbs, f.actividad,
      ParseNumber(f.horasInvertidas), ParseNumber(f.avanceMm), ParseNumber(f.totalMm),
      f.estado, f.comentarios, today, []);
    p.(avances := p.avances + [avance], newAvance := EmptyAvanceForm, showNewForm := false)
  }

  /** The record with one more rework event and the event's hours added. */
  function WithReproceso(a: Avance, r: Reproceso): Avance {
    a.(reprocesos := a.reprocesos + [r], horasInvertidas := Add(a.horasInvertidas, r.horasAdicionales))
  }

  /** Adding an event appends it after the existing ones and adds its hours; nothing else changes. */
  lemma WithReprocesoAppends(a: Avance, r: Reproceso)
    ensures var b := WithReproceso(a, r);
      && |b.reprocesos| == |a.reprocesos| + 1
      && b.reprocesos[..|a.reprocesos|] == a.reprocesos && b.reprocesos[|a.reprocesos|] == r
      && b.horasInvertidas == Add(a.horasInvertidas, r.horasAdicionales)
      && b.(reprocesos := a.reprocesos, horasInvertidas := a.horasInvertidas) == a
  {
    assert (a.reprocesos + [r])[..|a.reprocesos|] == a.reprocesos;
  }

  /** The event handleSubmitReproceso adds to record `k`: numbered after that record's events. */
  function NewReproceso(p: Page, k: nat, now: int, today: string): (r: Reproceso)
    requires k < |p.avances|
    ensures r.numero == |p.avances[k].reprocesos| + 1 && r.id == now && r.fecha == today
    ensures r.horasAdicionales == ParseNumber(p.newReproceso.horasAdicionales) && r.motivo == p.newReproceso.motivo
  {
    Reproceso(now, |p.avances[k].reprocesos| + 1,
      ParseNumber(p.newReproceso.horasAdicionales), p.newReproceso.motivo, today)
  }

  /**
   * handleSubmitReproceso for the record with id `avanceId`. `now` stands for
   * Date.now() (the event id) and `today` for the ISO date. Without a record of that id
   * nothing changes; otherwise every record of that id gets the new event, numbered after
   * the first such record's events, and the other records stay as they were.
   */
  function SubmitReproceso(p: Page, avanceId: int, now: int, today: string): (q: Page)
    ensures FindIndex(p.avances, avanceId).None? ==> q == p
    ensures FindIndex(p.avances, avanceId).Some? ==>
      var r := NewReproceso(p, FindIndex(p.avances, avanceId).value, now, today);
      && |q.avances| == |p.avances|
      && (forall i :: 0 <= i < |p.avances| ==>
            q.avances[i] == if p.avances[i].id == avanceId then WithReproceso(p.avances[i], r) else p.avances[i])
      && q.newReproceso == EmptyReprocesoForm && q.showReprocesoForm == None
      && q.showNewForm == p.showNewForm && q.newAvance == p.newAvance
  {
    match FindIndex(p.avances, avanceId)
    case None => p
    case Some(k) =>
      p.(avances := AddToMatching(p.avances, avanceId, NewReproceso(p, k, now, today)),
         newReproceso := EmptyReprocesoForm, showReprocesoForm := None)
  }

  /** `avances.map(a => a.id === id ? <a with r added> : a)`. */
  function AddToMatching(avs: seq<Avance>, id: int, r: Reproceso): (u: seq<Avance>)
    ensures |u| == |avs|
    ensures forall i :: 0 <= i < |avs| ==> u[i] == if avs[i].id == id then WithReproceso(avs[i], r) else avs[i]
  {
    seq(|avs|, i requires 0 <= i < |avs| => if avs[i].id == id then WithReproceso(avs[i], r) else avs[i])
  }

  lemma WithReprocesoNumbered(a: Avance, r: Reproceso)
    requires Numbered(a) && r.numero == |a.reprocesos| + 1
    ensures Numbered(WithReproceso(a, r))
  {
    var b := WithReproceso(a, r);
    forall j | 0 <= j < |b.reprocesos| ensures b.reprocesos[j].numero == j + 1 {
      if j < |a.reprocesos| {
        assert b.reprocesos[j] == a.reprocesos[j];
      }
    }
  }

  /** Adding a rework event keeps every record numbered 1..n when ids are unique. */
  lemma SubmitReprocesoKeepsNumbering(p: Page, avanceId: int, now: int, today: string)
    requires UniqueIds(p.avances)
    requires forall i :: 0 <= i < |p.avances| ==> Numbered(p.avances[i])
    ensures var q := SubmitReproceso(p, avanceId, now, today);
      UniqueIds(q.avances) && forall i :: 0 <= i < |q.avances| ==> Numbered(q.avances[i])
  {
    var q := SubmitReproceso(p, avanceId, now, today);
    match FindIndex(p.avances, avanceId)
    case None =>
    case Some(k) =>
      var r := NewReproceso(p, k, now, today);
      assert |q.avances| == |p.avances|;
      forall i | 0 <= i < |q.avances|
        ensures Numbered(q.avances[i]) && q.avances[i].id == p.avances[i].id
      {
        if p.avances[i].id == avanceId {
          assert i == k;
          assert q.avances[i] == WithReproceso(p.avances[i], r);
          WithReprocesoNumbered(p.avances[i], r);
        } else {
          assert q.avances[i] == p.avances[i];
        }
      }
  }

  /** Submitting a record keeps the numbering of every record, and ids stay unique for a fresh id. */
  lemma SubmitAvanceKeepsNumbering(p: Page, now: int, today: string)
    requires forall i :: 0 <= i < |p.avances| ==> Numbered(p.avances[i])
    requires UniqueIds(p.avances)
    requires forall i :: 0 <= i < |p.avances| ==> p.avances[i].id != now
    ensures var q := SubmitAvance(p, now, today);
      UniqueIds(q.avances) && forall i :: 0 <= i < |q.avances| ==> Numbered(q.avances[i])
  {
    var q := SubmitAvance(p, now, today);
    var a := q.avances[|p.avances|];
    assert q.avances == q.avances[..|p.avances|] + [a];
    AppendKeepsNumbering(p.avances, a);
  }

  lemma AppendKeepsNumbering(avs: seq<Avance>, a: Avance)
    requires forall i :: 0 <= i < |avs| ==> Numbered(avs[i])
    requires UniqueIds(avs) && Numbered(a)
    requires forall i :: 0 <= i < |avs| ==> avs[i].id != a.id
    ensures UniqueIds(avs + [a]) && forall i :: 0 <= i < |avs + [a]| ==> Numbered((avs + [a])[i])
  {
    var b := avs + [a];
    forall i | 0 <= i < |avs| ensures b[i] == avs[i] { }
  }

  /** The mock records have distinct ids and numbered rework events. */
  lemma MockAvancesWellFormed()
    ensures UniqueIds(MockAvances)
    ensures forall i :: 0 <= i < |MockAvances| ==> Numbered(MockAvances[i])
  {
  }

  datatype Variant = Default | Secondary | Destructive | Outline
  datatype StatusIcon = CheckCircle | Clock | AlertCircle | NoIcon

  /** getStatusVariant of this page: unknown states are shown like "En progreso". */
  function StatusVariant(estado: string): Variant {
    if estado == "Completado" then Default
    else if estado == "En progreso" then Secondary
    else if estado == "Bloqueado" then Destructive
    else Secondary
  }

  /** getStatusIcon: unknown states have no icon. */
  function StatusIconOf(estado: string): StatusIcon {
    if estado == "Completado" then CheckCircle
    else if estado == "En progreso" then Clock
    else if estado == "Bloqueado" then AlertCircle
    else NoIcon
  }

  /** The badge and the icon agree on every known state; an unknown state has no icon and a secondary badge. */
  lemma StatusBadgeMatchesIcon(estado: string)
    ensures StatusVariant(estado) == Default <==> StatusIconOf(estado) == CheckCircle
    ensures StatusVariant(estado) == Destructive <==> StatusIconOf(estado) == AlertCircle
    ensures StatusVariant(estado) == Secondary <==> StatusIconOf(estado) in {Clock, NoIcon}
    ensures StatusVariant(estado) != Outline
    ensures StatusIconOf(estado) == NoIcon <==> estado !in {"Completado", "En progreso", "Bloqueado"}
  {
  }
}
