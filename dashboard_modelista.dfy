/**
 * The modelista dashboard: the user's progress records and productivity events as
 * read from Firestore, normalised, filtered by operator name and summed into KPI
 * counters, an hours-per-activity chart and a per-project summary.
 */
module DashboardModelista {
  import opened Js
  import opened Aggregate
  import PlantillaAvance

  /** A progress-record document; `reprocesos` is None when the field is missing or falsy. */
  datatype AvanceDoc = AvanceDoc(fields: Obj, reprocesos: Option<seq<Obj>>)

  /** A normalised record: the document's fields with the three numeric fields rewritten. */
  datatype Registro = Registro(fields: Obj, reprocesos: seq<Obj>)

  const NumericFields: set<string> := {"horasInvertidas", "avanceMm", "totalMm"}

  /** `Number(v) || 0` written back into the object. */
  function WithNumber(o: Obj, k: string): (r: Obj)
    ensures r.Keys == o.Keys + {k}
    ensures r[k] == Num(NumberOrZero(Get(o, k)))
    ensures forall j :: j in o && j != k ==> r[j] == o[j]
  {
    o[k := Num(NumberOrZero(Get(o, k)))]
  }

  /** The three numeric fields rewritten in turn; every other field is left as it was. */
  function NumericNormalized(o: Obj): (r: Obj)
    ensures r.Keys == o.Keys + NumericFields
    ensures forall k :: k in o && k !in NumericFields ==> r[k] == o[k]
    ensures forall k :: k in NumericFields ==> r[k] == Num(NumberOrZero(Get(o, k)))
  {
    var o1 := WithNumber(o, "horasInvertidas");
    var o2 := WithNumber(o1, "avanceMm");
    var r := WithNumber(o2, "totalMm");
    assert Get(o1, "avanceMm") == Get(o, "avanceMm");
    assert Get(o2, "totalMm") == Get(o, "totalMm");
    assert r["horasInvertidas"] == o1["horasInvertidas"] && r["avanceMm"] == o2["avanceMm"];
    r
  }

  /** The normalisation applied to each record on load. */
  function Normalize(a: AvanceDoc): (r: Registro)
    ensures forall k :: k in a.fields && k !in NumericFields ==> k in r.fields && r.fields[k] == a.fields[k]
    ensures r.fields.Keys == a.fields.Keys + NumericFields
    ensures forall k :: k in NumericFields ==> r.fields[k] == Num(NumberOrZero(Get(a.fields, k)))
    ensures a.reprocesos.None? ==> r.reprocesos == []
    ensures a.reprocesos.Some? ==> r.reprocesos == a.reprocesos.value
  {
    Registro(NumericNormalized(a.fields), if a.reprocesos.Some? then a.reprocesos.value else [])
  }

  lemma NumberOrZeroOfNum(n: int)
    ensures NumberOrZero(Num(n)) == n
  {
  }

  /** A normalised record seen as a document again. */
  function AsDoc(r: Registro): AvanceDoc {
    AvanceDoc(r.fields, Some(r.reprocesos))
  }

  /** Normalising twice changes nothing. */
  lemma NormalizeIdempotent(a: AvanceDoc)
    ensures Normalize(AsDoc(Normalize(a))) == Normalize(a)
  {
    var r := Normalize(a);
    NumericNormalizedFixed(r.fields);
  }

  /** An object whose numeric fields already hold numbers is left as it is. */
  lemma NumericNormalizedFixed(o: Obj)
    requires forall k :: k in NumericFields ==> k in o && o[k].Num?
    ensures NumericNormalized(o) == o
  {
    var r := NumericNormalized(o);
    forall k | k in NumericFields ensures r[k] == o[k] {
      NumberOrZeroOfNum(o[k].n);
    }
    assert r.Keys == o.Keys;
  }

  function NormalizeAll(docs: seq<AvanceDoc>): (r: seq<Registro>)
    ensures |r| == |docs|
    ensures forall i :: 0 <= i < |docs| ==> r[i] == Normalize(docs[i])
  {
    seq(|docs|, i requires 0 <= i < |docs| => Normalize(docs[i]))
  }

  /** A numeric field of a normalised record, read as `(a.field || 0)`. */
  function NumField(r: Registro, k: string): int {
    NumberOrZero(Get(r.fields, k))
  }

  /** The normalised numeric fields read back as the number they were set to. */
  lemma NumFieldOfNormalized(a: AvanceDoc, k: string)
    requires k in NumericFields
    ensures NumField(Normalize(a), k) == NumberOrZero(Get(a.fields, k))
  {
  }

  // ---------------------------------------------------------------------------
  // Productivity events of the signed-in operator

  /** `String(e.operario || '')`. */
  function OperatorName(e: Obj): string {
    var v := Get(e, "operario");
    if Truthy(v) then JsString(v) else ""
  }

  /** The filter's test for one event under the user name `nombre`. */
  predicate Matches(e: Obj, nombre: Value) {
    Truthy(nombre) && ToLower(OperatorName(e)) == ToLower(JsString(nombre))
  }

  /** `{ ...e, duracionMin: Number(e.duracionMin) || 0 }`. */
  function NormalizeEvent(e: Obj): (r: Obj)
    ensures r.Keys == e.Keys + {"duracionMin"}
    ensures r["duracionMin"] == Num(NumberOrZero(Get(e, "duracionMin")))
  {
    WithNumber(e, "duracionMin")
  }

  /** The `filter(...).map(...)` pipeline over all events. */
  function FilterProd(all: seq<Obj>, nombre: Value): (r: seq<Obj>)
    ensures |r| <= |all|
    ensures !Truthy(nombre) ==> r == []
  {
    if all == [] then []
    else
      var rest := FilterProd(all[..|all| - 1], nombre);
      var e := all[|all| - 1];
      if Matches(e, nombre) then rest + [NormalizeEvent(e)] else rest
  }

  /** The pipeline distributes over concatenation: it keeps each event on its own merits and in order. */
  lemma {:induction false} FilterProdAppend(a: seq<Obj>, b: seq<Obj>, nombre: Value)
    ensures FilterProd(a + b, nombre) == FilterProd(a, nombre) + FilterProd(b, nombre)
    decreases |b|
  {
    if b == [] {
      assert a + b == a;
    } else {
      var b', e := b[..|b| - 1], b[|b| - 1];
      assert (a + b)[..|a + b| - 1] == a + b';
      assert (a + b)[|a + b| - 1] == e;
      FilterProdAppend(a, b', nombre);
    }
  }

  /** A single event is kept, normalised, iff it matches. */
  lemma FilterProdSingle(e: Obj, nombre: Value)
    ensures FilterProd([e], nombre) == if Matches(e, nombre) then [NormalizeEvent(e)] else []
  {
    assert [e][..0] == [];
  }

  /** Every kept event is the normalisation of an input event that matches. */
  lemma {:induction false} FilterProdSound(all: seq<Obj>, nombre: Value, x: Obj)
    requires x in FilterProd(all, nombre)
    ensures exists e :: e in all && Matches(e, nombre) && x == NormalizeEvent(e)
  {
    var init, e := all[..|all| - 1], all[|all| - 1];
    assert all == init + [e];
    if x in FilterProd(init, nombre) {
      FilterProdSound(init, nombre, x);
    } else {
      assert Matches(e, nombre) && x == NormalizeEvent(e);
    }
  }

  /** Every matching input event is kept, normalised. */
  lemma {:induction false} FilterProdComplete(all: seq<Obj>, nombre: Value, e: Obj)
    requires e in all && Matches(e, nombre)
    ensures NormalizeEvent(e) in FilterProd(all, nombre)
  {
    var init, last := all[..|all| - 1], all[|all| - 1];
    assert all == init + [last];
    if e != last {
      FilterProdComplete(init, nombre, e);
    }
  }

  /** `(p.duracionMin || 0)` summed: the minutes of the kept events. */
  function ProdMinutes(evs: seq<Obj>): int {
    if evs == [] then 0
    else ProdMinutes(evs[..|evs| - 1]) + NumberOrZero(Get(evs[|evs| - 1], "duracionMin"))
  }

  /** `(a[k] || 0)` summed over the records. */
  function FieldSum(avs: seq<Registro>, k: string): int {
    if avs == [] then 0
    else FieldSum(avs[..|avs| - 1], k) + NumField(avs[|avs| - 1], k)
  }

  /** `(a.horasInvertidas || 0)` summed over the records. */
  function AvanceHours(avs: seq<Registro>): int {
    FieldSum(avs, "horasInvertidas")
  }

  /** `totalHoras`. */
  function TotalHoras(avs: seq<Registro>, evs: seq<Obj>): int {
    AvanceHours(avs) + ProdMinutes(evs)
  }

  /** `avances.filter(a => a.estado === estado).length`. */
  function CountEstado(avs: seq<Registro>, estado: string): (n: nat)
    ensures n <= |avs|
  {
    if avs == [] then 0
    else CountEstado(avs[..|avs| - 1], estado) + (if Get(avs[|avs| - 1].fields, "estado") == Str(estado) then 1 else 0)
  }

  /** The three status counters never add up to more than the number of records. */
  lemma {:induction false} StatusCountsBounded(avs: seq<Registro>)
    ensures CountEstado(avs, "Completado") + CountEstado(avs, "En progreso") + CountEstado(avs, "Bloqueado") <= |avs|
  {
    if avs != [] {
      StatusCountsBounded(avs[..|avs| - 1]);
    }
  }

  // ---------------------------------------------------------------------------
  // Hours per activity

  /** `a.actividad || 'Sin actividad'`, as an object key. */
  function ActivityKey(a: Registro): string {
    var v := Get(a.fields, "actividad");
    if Truthy(v) then JsString(v) else "Sin actividad"
  }

  /** `` `Prod: ${p.sistema || p.tipo || 'Otros'}` ``. */
  function ProdKey(p: Obj): string {
    var s, t := Get(p, "sistema"), Get(p, "tipo");
    "Prod: " + (if Truthy(s) then JsString(s) else if Truthy(t) then JsString(t) else "Otros")
  }

  /** The chart accumulator after the loop over the records. */
  function ActivityAcc(avs: seq<Registro>): map<string, int> {
    if avs == [] then map[]
    else
      var a := avs[|avs| - 1];
      AddAt(ActivityAcc(avs[..|avs| - 1]), ActivityKey(a), NumField(a, "horasInvertidas"))
  }

  /** The chart accumulator after the loop over the events, starting from `acc`. */
  function ProdAcc(acc: map<string, int>, evs: seq<Obj>): map<string, int> {
    if evs == [] then acc
    else
      var p := evs[|evs| - 1];
      AddAt(ProdAcc(acc, evs[..|evs| - 1]), ProdKey(p), NumberOrZero(Get(p, "duracionMin")))
  }

  /** The chart data (before Object.entries): hours per activity, then minutes per system. */
  method HorasPorActividad(avs: seq<Registro>, evs: seq<Obj>) returns (acc: map<string, int>)
    ensures acc == ProdAcc(ActivityAcc(avs), evs)
  {
    acc := map[];
    var i := 0;
    while i < |avs|
      invariant 0 <= i <= |avs|
      invariant acc == ActivityAcc(avs[..i])
    {
      var a := avs[i];
      acc := AddAt(acc, ActivityKey(a), NumField(a, "horasInvertidas"));
      assert avs[..i + 1][..i] == avs[..i];
      i := i + 1;
    }
    assert avs[..i] == avs;
    ghost var base := acc;
    var j := 0;
    while j < |evs|
      invariant 0 <= j <= |evs|
      invariant acc == ProdAcc(base, evs[..j])
    {
      var p := evs[j];
      acc := AddAt(acc, ProdKey(p), NumberOrZero(Get(p, "duracionMin")));
      assert evs[..j + 1][..j] == evs[..j];
      j := j + 1;
    }
    assert evs[..j] == evs;
  }

  lemma {:induction false} ActivityAccSum(avs: seq<Registro>)
    ensures MapSum(ActivityAcc(avs)) == AvanceHours(avs)
  {
    if avs == [] {
      assert |ActivityAcc(avs)| == 0;
    } else {
      var a := avs[|avs| - 1];
      ActivityAccSum(avs[..|avs| - 1]);
      AddAtSum(ActivityAcc(avs[..|avs| - 1]), ActivityKey(a), NumField(a, "horasInvertidas"));
    }
  }

  lemma {:induction false} ProdAccSum(acc: map<string, int>, evs: seq<Obj>)
    ensures MapSum(ProdAcc(acc, evs)) == MapSum(acc) + ProdMinutes(evs)
  {
    if evs != [] {
      var p := evs[|evs| - 1];
      ProdAccSum(acc, evs[..|evs| - 1]);
      AddAtSum(ProdAcc(acc, evs[..|evs| - 1]), ProdKey(p), NumberOrZero(Get(p, "duracionMin")));
    }
  }

  /** The chart's bars add up to the "Horas Totales" KPI. */
  lemma ChartSumsToTotalHoras(avs: seq<Registro>, evs: seq<Obj>)
    ensures MapSum(ProdAcc(ActivityAcc(avs), evs)) == TotalHoras(avs, evs)
  {
    ActivityAccSum(avs);
    ProdAccSum(ActivityAcc(avs), evs);
  }

  /** Every bar is keyed by a record's activity (or "Sin actividad") or by "Prod: " and a system. */
  lemma {:induction false} ChartKeys(avs: seq<Registro>, evs: seq<Obj>, k: string)
    ensures k in ProdAcc(ActivityAcc(avs), evs) <==>
      (exists a :: a in avs && ActivityKey(a) == k) || (exists p :: p in evs && ProdKey(p) == k)
    decreases |avs| + |evs|
  {
    if evs != [] {
      var init := evs[..|evs| - 1];
      ChartKeys(avs, init, k);
      assert evs == init + [evs[|evs| - 1]];
    } else if avs != [] {
      var init := avs[..|avs| - 1];
      ChartKeys(init, [], k);
      assert avs == init + [avs[|avs| - 1]];
    }
  }

  // ---------------------------------------------------------------------------
  // Projects

  datatype Proyecto = Proyecto(proyecto: Value, horas: int, avanceMm: int, totalMm: int, count: nat, estado: string)

  /** `a.proyecto || 'Sin proyecto'`: the raw field value, so that `5` and `"5"` are two projects. */
  function ProjectKey(a: Registro): (r: Value)
    ensures Truthy(r)
    ensures Truthy(Get(a.fields, "proyecto")) ==> r == Get(a.fields, "proyecto")
  {
    var v := Get(a.fields, "proyecto");
    if Truthy(v) then v else Str("Sin proyecto")
  }

  predicate IsCompletado(a: Registro) {
    Get(a.fields, "estado") == Str("Completado")
  }

  /** One step of the loop: the record's numbers are added and a Completado record marks the project. */
  function AddRecord(entry: Proyecto, a: Registro): Proyecto {
    Proyecto(entry.proyecto, entry.horas + NumField(a, "horasInvertidas"),
      entry.avanceMm + NumField(a, "avanceMm"), entry.totalMm + NumField(a, "totalMm"),
      entry.count + 1, if IsCompletado(a) then "Completado" else entry.estado)
  }

  function FreshProject(key: Value): Proyecto {
    Proyecto(key, 0, 0, 0, 0, "En progreso")
  }

  /** `proyectosMap` after the loop over the records. */
  function Projects(avs: seq<Registro>): map<Value, Proyecto> {
    if avs == [] then map[] else ProjectStep(Projects(avs[..|avs| - 1]), avs[|avs| - 1])
  }

  /** The loop body: fetch or create the entry of the record's project and add the record. */
  function ProjectStep(m: map<Value, Proyecto>, a: Registro): map<Value, Proyecto> {
    var key := ProjectKey(a);
    m[key := AddRecord(if key in m then m[key] else FreshProject(key), a)]
  }

  lemma ProjectsSnoc(avs: seq<Registro>, a: Registro)
    ensures Projects(avs + [a]) == ProjectStep(Projects(avs), a)
  {
    assert (avs + [a])[..|avs|] == avs;
  }

  method ProyectosMap(avs: seq<Registro>) returns (m: map<Value, Proyecto>)
    ensures m == Projects(avs)
  {
    m := map[];
    var i := 0;
    while i < |avs|
      invariant 0 <= i <= |avs|
      invariant m == Projects(avs[..i])
    {
      var a := avs[i];
      var key := ProjectKey(a);
      var entry := if key in m then m[key] else FreshProject(key);
      entry := AddRecord(entry, a);
      m := m[key := entry];
      assert avs[..i + 1] == avs[..i] + [a];
      ProjectsSnoc(avs[..i], a);
      i := i + 1;
    }
    assert avs[..i] == avs;
  }

  predicate InProject(key: Value, a: Registro) {
    ProjectKey(a) == key
  }

  /** The records of project `key`, in order. */
  function RecordsOf(avs: seq<Registro>, key: Value): (r: seq<Registro>)
    ensures |r| <= |avs|
  {
    if avs == [] then []
    else
      var rest := RecordsOf(avs[..|avs| - 1], key);
      if InProject(key, avs[|avs| - 1]) then rest + [avs[|avs| - 1]] else rest
  }

  /**
   * A project entry is named by its key, counts its records, and is "Completado" iff one of
   * its records is, "En progreso" otherwise; there is an entry iff some record has that key.
   */
  lemma {:induction false} ProjectEntry(avs: seq<Registro>, key: Value)
    ensures key in Projects(avs) <==> exists a :: a in avs && ProjectKey(a) == key
    ensures key in Projects(avs) ==>
      var p := Projects(avs)[key];
      && p.proyecto == key
      && p.count == |RecordsOf(avs, key)|
      && (p.estado == "Completado" <==> exists a :: a in RecordsOf(avs, key) && IsCompletado(a))
      && (p.estado != "Completado" ==> p.estado == "En progreso")
  {
    if avs != [] {
      var init, a := avs[..|avs| - 1], avs[|avs| - 1];
      assert avs == init + [a];
      ProjectEntry(init, key);
      if ProjectKey(a) == key && key !in Projects(init) {
        RecordsOfNone(init, key);
      }
    }
  }

  /** A project's hours and mm are the sums over its records. */
  lemma {:induction false} ProjectSums(avs: seq<Registro>, key: Value)
    requires key in Projects(avs)
    ensures var p := Projects(avs)[key];
      && p.horas == FieldSum(RecordsOf(avs, key), "horasInvertidas")
      && p.avanceMm == FieldSum(RecordsOf(avs, key), "avanceMm")
      && p.totalMm == FieldSum(RecordsOf(avs, key), "totalMm")
  {
    var init, a := avs[..|avs| - 1], avs[|avs| - 1];
    assert avs == init + [a];
    if ProjectKey(a) != key {
      ProjectSums(init, key);
    } else {
      var rs := RecordsOf(init, key);
      assert (rs + [a])[..|rs|] == rs;
      if key in Projects(init) {
        ProjectSums(init, key);
      } else {
        ProjectEntry(init, key);
        RecordsOfNone(init, key);
      }
    }
  }

  /** Everything `proyectosMap` holds for a project, in terms of that project's records. */
  lemma ProjectContents(avs: seq<Registro>, key: Value)
    ensures key in Projects(avs) <==> exists a :: a in avs && ProjectKey(a) == key
    ensures key in Projects(avs) ==>
      var p := Projects(avs)[key];
      && p.proyecto == key
      && p.count == |RecordsOf(avs, key)|
      && p.horas == FieldSum(RecordsOf(avs, key), "horasInvertidas")
      && p.avanceMm == FieldSum(RecordsOf(avs, key), "avanceMm")
      && p.totalMm == FieldSum(RecordsOf(avs, key), "totalMm")
      && (p.estado == "Completado" <==> exists a :: a in RecordsOf(avs, key) && IsCompletado(a))
      && (p.estado != "Completado" ==> p.estado == "En progreso")
  {
    ProjectEntry(avs, key);
    if key in Projects(avs) {
      ProjectSums(avs, key);
    }
  }

  /** A project numbered `5` and one named `"5"` get two entries, as the page's Map keeps them. */
  lemma NumberAndTextAreTwoProjects(a: Registro, b: Registro)
    requires Get(a.fields, "proyecto") == Num(5) && Get(b.fields, "proyecto") == Str("5")
    ensures Num(5) in Projects([a, b]) && Str("5") in Projects([a, b])
    ensures Projects([a, b])[Num(5)].count == 1 && Projects([a, b])[Str("5")].count == 1
  {
    assert [a, b][..1] == [a];
    assert [a][..0] == [];
    var m := Projects([a]);
    assert Projects([a][..0]) == map[];
    assert m == ProjectStep(map[], a);
    assert ProjectKey(a) == Num(5) && ProjectKey(b) == Str("5");
    assert Projects([a, b]) == m[Str("5") := AddRecord(FreshProject(Str("5")), b)];
  }

  lemma {:induction false} RecordsOfNone(avs: seq<Registro>, key: Value)
    requires forall a :: a in avs ==> ProjectKey(a) != key
    ensures RecordsOf(avs, key) == []
  {
    if avs != [] {
      RecordsOfNone(avs[..|avs| - 1], key);
    }
  }

  function Counts(m: map<Value, Proyecto>): (r: map<Value, int>)
    ensures r.Keys == m.Keys
  {
    map k | k in m :: m[k].count as int
  }

  /** The "Registros" counts of all projects add up to the number of records. */
  lemma {:induction false} ProjectCountsSum(avs: seq<Registro>)
    ensures MapSum(Counts(Projects(avs))) == |avs|
  {
    if avs == [] {
      assert |Counts(Projects(avs))| == 0;
    } else {
      var init, a := avs[..|avs| - 1], avs[|avs| - 1];
      var m := Projects(init);
      var key := ProjectKey(a);
      var old_p := if key in m then m[key] else FreshProject(key);
      ProjectCountsSum(init);
      assert Projects(avs) == m[key := AddRecord(old_p, a)];
      assert Counts(Projects(avs)) == Counts(m)[key := old_p.count + 1];
      MapSumUpdate(Counts(m), key, old_p.count + 1);
    }
  }

  /** `Math.round(x)` on reals: the nearest integer, halves rounded up. */
  function Round(x: real): int {
    (x + 0.5).Floor
  }

  /** The displayed percentage, `totalMm ? Math.round(avanceMm / totalMm * 100) : 0`. */
  function ProjectPercent(p: Proyecto): (r: int)
    ensures p.totalMm == 0 ==> r == 0
    ensures 0 <= p.avanceMm <= p.totalMm ==> 0 <= r <= 100
  {
    if p.totalMm == 0 then 0
    else
      var x := (p.avanceMm as real / p.totalMm as real) * 100.0;
      assert 0 <= p.avanceMm <= p.totalMm ==> 0.0 <= x <= 100.0 by {
        if 0 <= p.avanceMm <= p.totalMm {
          assert p.avanceMm as real / p.totalMm as real <= 1.0;
        }
      }
      Round(x)
  }

  /** This page's getStatusVariant: unknown states get the outline badge. */
  function StatusVariant(estado: string): PlantillaAvance.Variant {
    if estado == "Completado" then PlantillaAvance.Default
    else if estado == "En progreso" then PlantillaAvance.Secondary
    else if estado == "Bloqueado" then PlantillaAvance.Destructive
    else PlantillaAvance.Outline
  }

  /** Both pages badge the known states alike; they differ exactly on unknown states. */
  lemma StatusVariantAgreesWithTemplatePage(estado: string)
    ensures StatusVariant(estado) == PlantillaAvance.StatusVariant(estado)
        <==> estado in {"Completado", "En progreso", "Bloqueado"}
    ensures StatusVariant(estado) == PlantillaAvance.Outline <==> estado !in {"Completado", "En progreso", "Bloqueado"}
  {
  }

  /** A project's badge is never the outline one: its state is always Completado or En progreso. */
  lemma ProjectBadge(avs: seq<Registro>, key: Value)
    requires key in Projects(avs)
    ensures StatusVariant(Projects(avs)[key].estado) in {PlantillaAvance.Default, PlantillaAvance.Secondary}
  {
    ProjectContents(avs, key);
  }
}
