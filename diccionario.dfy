/** The metric dictionary: eight fixed entries, filtered by a search term and a category. */
module Diccionario {
  import opened Js

  /** An entry; its icon is left out. */
  datatype Metrica = Metrica(termino: string, definicion: string, formula: string, categoria: string, aplicacion: string)

  const Metricas: seq<Metrica> := [
    Metrica("CGT (Compensated Gross Tonnage)",
      "Medida estándar internacional que compensa el tonelaje bruto de un buque según su complejidad de construcción.",
      "CGT = A × (GT^B) donde A y B son coeficientes empíricos", "Metodología",
      "Estimación de horas de construcción y comparación entre proyectos"),
    Metrica("Curva S Acumulada",
      "Representación gráfica del avance acumulado del proyecto a lo largo del tiempo.",
      "Avance Acumulado (%) vs Tiempo", "Seguimiento",
      "Monitoreo del progreso del proyecto y detección de desviaciones"),
    Metrica("SWBS (Ship Work Breakdown Structure)",
      "Estructura jerárquica que descompone el trabajo de construcción naval en sistemas manejables.",
      "Código alfanumérico: SWB-XXX", "Organización",
      "Organización y seguimiento de actividades por sistema del buque"),
    Metrica("Horas de Reproceso",
      "Tiempo adicional invertido en corregir o rehacer trabajo previamente completado.",
      "Horas Reproceso = Σ(Horas adicionales por corrección)", "Eficiencia",
      "Medición de eficiencia y identificación de áreas de mejora"),
    Metrica("Avance en Milímetros",
      "Medición física del progreso de construcción expresada en unidades lineales.",
      "Avance (mm) / Total Planificado (mm) × 100", "Medición",
      "Seguimiento preciso del avance físico de construcción"),
    Metrica("Factor de Cliente (CF)",
      "Coeficiente que ajusta la complejidad según los requerimientos específicos del cliente.",
      "CF = Factor base × Multiplicadores de complejidad", "Metodología",
      "Ajuste de estimaciones según especificaciones del proyecto"),
    Metrica("Productividad Promedio (pp)",
      "Relación entre las horas reales invertidas y las horas estándar estimadas.",
      "pp = Horas Reales / Horas Estándar", "Eficiencia",
      "Evaluación del rendimiento del equipo de trabajo"),
    Metrica("Ranking de Sistemas Críticos",
      "Clasificación de sistemas SWBS según su impacto en reprocesos y retrasos.",
      "Puntuación = (Reprocesos × Peso) + (Horas Adicionales × Peso)", "Análisis",
      "Priorización de atención y recursos en sistemas problemáticos")
  ]

  const Todas := "Todas"
  const Categorias: seq<string> :=
    [Todas, "Metodología", "Seguimiento", "Organización", "Eficiencia", "Medición", "Análisis"]

  /** The filter's predicate: the lowercased term in the term or the definition, and the category. */
  predicate Matches(m: Metrica, searchTerm: string, category: string) {
    var q := ToLower(searchTerm);
    && (Includes(ToLower(m.termino), q) || Includes(ToLower(m.definicion), q))
    && (category == Todas || m.categoria == category)
  }

  /** `ms.filter(...)` */
  function Filter(ms: seq<Metrica>, searchTerm: string, category: string): (r: seq<Metrica>)
    ensures |r| <= |ms|
    ensures Subsequence(r, ms)
    ensures forall m :: m in r <==> m in ms && Matches(m, searchTerm, category)
  {
    if ms == [] then []
    else
      var rest := Filter(ms[1..], searchTerm, category);
      SubsequenceOfTail(rest, ms);
      if Matches(ms[0], searchTerm, category) then [ms[0]] + rest else rest
  }

  /** `filteredMetricas` */
  function Filtered(searchTerm: string, category: string): seq<Metrica> {
    Filter(Metricas, searchTerm, category)
  }

  /**
   * The result keeps the dictionary's order, and holds exactly the entries whose term or
   * definition contains the search term and whose category is the chosen one (any, for "Todas").
   */
  lemma FilteredContract(searchTerm: string, category: string)
    ensures Subsequence(Filtered(searchTerm, category), Metricas)
    ensures forall m :: m in Filtered(searchTerm, category) ==>
      && (category == Todas || m.categoria == category)
      && (Includes(ToLower(m.termino), ToLower(searchTerm)) || Includes(ToLower(m.definicion), ToLower(searchTerm)))
    ensures forall m :: m in Metricas && Matches(m, searchTerm, category) ==> m in Filtered(searchTerm, category)
  {
  }

  /** An empty search in "Todas" shows the whole dictionary. */
  lemma EmptySearchShowsAll()
    ensures Filtered("", Todas) == Metricas && |Filtered("", Todas)| == 8
  {
    assert ToLower("") == "";
    forall m | m in Metricas
      ensures Matches(m, "", Todas)
    {
      IncludesEmpty(ToLower(m.termino));
    }
    AllMatchKeepsAll(Metricas, "", Todas);
  }

  lemma {:induction false} AllMatchKeepsAll(ms: seq<Metrica>, searchTerm: string, category: string)
    requires forall m :: m in ms ==> Matches(m, searchTerm, category)
    ensures Filter(ms, searchTerm, category) == ms
  {
    if ms != [] {
      AllMatchKeepsAll(ms[1..], searchTerm, category);
      assert ms == [ms[0]] + ms[1..];
    }
  }

  /** Every entry's category is one of the category buttons, and "Todas" is none of them. */
  lemma CategoriesCoverEntries()
    ensures forall m :: m in Metricas ==> m.categoria in Categorias && m.categoria != Todas
  {
  }

  /** The empty-state message: shown exactly when no entry matches. */
  predicate ShowsEmptyState(searchTerm: string, category: string) {
    |Filtered(searchTerm, category)| == 0
  }

  lemma EmptyStateIff(searchTerm: string, category: string)
    ensures ShowsEmptyState(searchTerm, category) <==> forall m :: m in Metricas ==> !Matches(m, searchTerm, category)
  {
    var r := Filtered(searchTerm, category);
    if r != [] {
      assert r[0] in r;
    }
  }
}
