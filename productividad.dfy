/**
 * The productivity page: a list of time entries kept in the browser, grouped per
 * operator and day, then per operator, and summed into a block × system matrix of
 * productive minutes.
 */
module Productividad {
  import opened Js
  import opened Aggregate

  /** The systems shown as matrix columns, in display order. */
  const Sistemas: seq<string> := ["HVAC", "PIPE", "CBTR"]

  datatype Evento = Evento(
    id: string,
    fecha: string,
    operario: string,
    bloque: string,
    sistema: string,
    tipo: string,
    duracionMin: int)

  /** The entry form; `duracionMin` holds `Number(input)`. */
  datatype EventoForm = EventoForm(
    fecha: string,
    operario: string,
    bloque: string,
    sistema: string,
    tipo: string,
    duracionMin: Number)

  /** The guard of addEvento: every field filled and a non-zero, non-NaN duration. */
  predicate Accepts(f: EventoForm) {
    f.fecha != "" && f.operario != "" && f.sistema != "" && f.tipo != "" && !Falsy(f.duracionMin)
  }

  /** addEvento; `uuid` stands for crypto.randomUUID(). */
  function AddEvento(eventos: seq<Evento>, f: EventoForm, uuid: string): (r: seq<Evento>)
    ensures !Accepts(f) ==> r == eventos
    ensures Accepts(f) ==> |r| == |eventos| + 1 && r[1..] == eventos
    ensures Accepts(f) ==>
      && r[0].id == uuid && r[0].fecha == f.fecha && r[0].operario == f.operario
      && r[0].sistema == f.sistema && r[0].tipo == f.tipo
      && r[0].bloque == f.bloque
      && r[0].duracionMin == f.duracionMin.v && r[0].duracionMin != 0
  {
    if !Accepts(f) then eventos
    else [Evento(uuid, f.fecha, f.operario, f.bloque, f.sistema, f.tipo, f.duracionMin.v)] + eventos
  }

  /** reset: the list is emptied only when the user confirms. */
  function Reset(eventos: seq<Evento>, confirmed: bool): (r: seq<Evento>)
    ensures confirmed ==> r == []
    ensures !confirmed ==> r == eventos
  {
    if confirmed then [] else eventos
  }

  // ---------------------------------------------------------------------------
  // Sums over the event list

  /** The minutes of the events satisfying `p`. */
  function SumWhere(evs: seq<Evento>, p: Evento -> bool): int
  {
    if evs == [] then 0
    else SumWhere(evs[..|evs| - 1], p) + (if p(evs[|evs| - 1]) then evs[|evs| - 1].duracionMin else 0)
  }

  lemma SumWhereAppend(evs: seq<Evento>, e: Evento, p: Evento -> bool)
    ensures SumWhere(evs + [e], p) == SumWhere(evs, p) + (if p(e) then e.duracionMin else 0)
  {
    assert (evs + [e])[..|evs|] == evs;
  }

  // ---------------------------------------------------------------------------
  // porOperarioDia

  datatype Bucket = Bucket(tpr: int, pnp: int, tm: int, rw: int, otros: int, total: int)

  const EmptyBucket := Bucket(0, 0, 0, 0, 0, 0)

  /** The grouping key `${operario}|${fecha}`. */
  function DayKey(e: Evento): string {
    e.operario + "|" + e.fecha
  }

  predicate IsOther(tipo: string) {
    tipo != "PRODUCTIVO" && tipo != "PNP" && tipo != "TM" && tipo != "RW"
  }

  /** One step of the loop body: the minutes go to the type's counter and to the total. */
  function AddToBucket(b: Bucket, e: Evento): Bucket {
    var d := e.duracionMin;
    var b' :=
      if e.tipo == "PRODUCTIVO" then b.(tpr := b.tpr + d)
      else if e.tipo == "PNP" then b.(pnp := b.pnp + d)
      else if e.tipo == "TM" then b.(tm := b.tm + d)
      else if e.tipo == "RW" then b.(rw := b.rw + d)
      else b.(otros := b.otros + d);
    b'.(total := b'.total + d)
  }

  /** The map the porOperarioDia loop has built after visiting `evs` in order. */
  function DayBuckets(evs: seq<Evento>): map<string, Bucket>
  {
    if evs == [] then map[]
    else
      var m := DayBuckets(evs[..|evs| - 1]);
      var e := evs[|evs| - 1];
      var k := DayKey(e);
      m[k := AddToBucket(if k in m then m[k] else EmptyBucket, e)]
  }

  /** porOperarioDia: the loop over the events. */
  method PorOperarioDia(evs: seq<Evento>) returns (m: map<string, Bucket>)
    ensures m == DayBuckets(evs)
  {
    m := map[];
    var i := 0;
    while i < |evs|
      invariant 0 <= i <= |evs|
      invariant m == DayBuckets(evs[..i])
    {
      var e := evs[i];
      var k := DayKey(e);
      var o := if k in m then m[k] else EmptyBucket;
      o := AddToBucket(o, e);
      m := m[k := o];
      assert evs[..i + 1][..i] == evs[..i];
      i := i + 1;
    }
    assert evs[..i] == evs;
  }

  predicate OnKey(k: string, e: Evento) {
    DayKey(e) == k
  }

  /**
   * Each bucket holds, per type, the minutes of the events with its key: ADM, CAP_NP and
   * every unknown type go to `otros`; its total is the sum of the five counters; and the
   * keys are exactly the keys of the events.
   */
  lemma {:induction false} DayBucketContents(evs: seq<Evento>, k: string)
    ensures k in DayBuckets(evs) <==> exists e :: e in evs && DayKey(e) == k
    ensures k in DayBuckets(evs) ==>
      var b := DayBuckets(evs)[k];
      && b.tpr == SumWhere(evs, e => OnKey(k, e) && e.tipo == "PRODUCTIVO")
      && b.pnp == SumWhere(evs, e => OnKey(k, e) && e.tipo == "PNP")
      && b.tm == SumWhere(evs, e => OnKey(k, e) && e.tipo == "TM")
      && b.rw == SumWhere(evs, e => OnKey(k, e) && e.tipo == "RW")
      && b.otros == SumWhere(evs, e => OnKey(k, e) && IsOther(e.tipo))
      && b.total == SumWhere(evs, e => OnKey(k, e))
      && b.total == b.tpr + b.pnp + b.tm + b.rw + b.otros
  {
    if evs != [] {
      var init, e := evs[..|evs| - 1], evs[|evs| - 1];
      assert evs == init + [e];
      DayBucketContents(init, k);
      SumWhereAppend(init, e, e => OnKey(k, e) && e.tipo == "PRODUCTIVO");
      SumWhereAppend(init, e, e => OnKey(k, e) && e.tipo == "PNP");
      SumWhereAppend(init, e, e => OnKey(k, e) && e.tipo == "TM");
      SumWhereAppend(init, e, e => OnKey(k, e) && e.tipo == "RW");
      SumWhereAppend(init, e, e => OnKey(k, e) && IsOther(e.tipo));
      SumWhereAppend(init, e, e => OnKey(k, e));
      if DayKey(e) == k && k !in DayBuckets(init) {
        assert forall x :: x in init ==> DayKey(x) != k;
        SumWhereNone(init, e => OnKey(k, e) && e.tipo == "PRODUCTIVO");
        SumWhereNone(init, e => OnKey(k, e) && e.tipo == "PNP");
        SumWhereNone(init, e => OnKey(k, e) && e.tipo == "TM");
        SumWhereNone(init, e => OnKey(k, e) && e.tipo == "RW");
        SumWhereNone(init, e => OnKey(k, e) && IsOther(e.tipo));
        SumWhereNone(init, e => OnKey(k, e));
      }
    }
  }

  lemma {:induction false} SumWhereNone(evs: seq<Evento>, p: Evento -> bool)
    requires forall e :: e in evs ==> !p(e)
    ensures SumWhere(evs, p) == 0
  {
    if evs != [] {
      SumWhereNone(evs[..|evs| - 1], p);
    }
  }

  /** The bucket totals as a map of numbers. */
  function Totals(m: map<string, Bucket>): (r: map<string, int>)
    ensures r.Keys == m.Keys
  {
    map k | k in m :: m[k].total
  }

  /** Conservation: the bucket totals add up to the minutes of all events. */
  lemma {:induction false} DayBucketsConserve(evs: seq<Evento>)
    ensures MapSum(Totals(DayBuckets(evs))) == SumWhere(evs, e => true)
  {
    if evs != [] {
      var init, e := evs[..|evs| - 1], evs[|evs| - 1];
      var m := DayBuckets(init);
      var k := DayKey(e);
      var old_b := if k in m then m[k] else EmptyBucket;
      var b := AddToBucket(old_b, e);
      DayBucketsConserve(init);
      assert DayBuckets(evs) == m[k := b];
      AddToBucketTotal(old_b, e);
      TotalsUpdate(m, k, old_b, b);
      assert evs == init + [e];
      SumWhereAppend(init, e, e => true);
      assert MapSum(Totals(DayBuckets(evs))) == MapSum(Totals(m)) + e.duracionMin;
    }
  }

  lemma AddToBucketTotal(b: Bucket, e: Evento)
    ensures AddToBucket(b, e).total == b.total + e.duracionMin
  {
  }

  /** Replacing the bucket at `k` (or adding it as a new one) changes the total sum by the difference. */
  lemma TotalsUpdate(m: map<string, Bucket>, k: string, old_b: Bucket, b: Bucket)
    requires old_b == if k in m then m[k] else EmptyBucket
    ensures MapSum(Totals(m[k := b])) == MapSum(Totals(m)) + b.total - old_b.total
  {
    assert Totals(m[k := b]) == Totals(m)[k := b.total];
    MapSumUpdate(Totals(m), k, b.total);
  }

  // ---------------------------------------------------------------------------
  // porOperario

  /** The per-operator accumulator `{dias, tpr, pnp, tm, rw, td}`. */
  datatype Acc = Acc(dias: nat, tpr: int, pnp: int, tm: int, rw: int, td: int)

  /** A displayed row; the percentages are 0 unless `td` is positive. */
  datatype OpRow = OpRow(
    operario: string,
    dias: nat,
    tpr: int,
    td: int,
    pctProd: real,
    pctPNP: real,
    pctTM: real,
    pctRW: real)

  /** The operator of a bucket key: `k.split("|")[0]`. */
  function OperatorOf(k: string): string {
    FirstField(k, '|')
  }

  /** The buckets whose key names operator `op`. */
  function Group(d: map<string, Bucket>, op: string): (g: map<string, Bucket>)
    ensures g.Keys <= d.Keys
  {
    map k | k in d && OperatorOf(k) == op :: d[k]
  }

  datatype Field = TPR | PNP | TM | RW | TOTAL

  function FieldOf(b: Bucket, f: Field): int {
    match f
    case TPR => b.tpr
    case PNP => b.pnp
    case TM => b.tm
    case RW => b.rw
    case TOTAL => b.total
  }

  function FieldMap(g: map<string, Bucket>, f: Field): (r: map<string, int>)
    ensures r.Keys == g.Keys
  {
    map j | j in g :: FieldOf(g[j], f)
  }

  /** The sum of one counter over a group of buckets. */
  ghost function FieldSum(g: map<string, Bucket>, f: Field): int {
    MapSum(FieldMap(g, f))
  }

  lemma FieldSumAdd(g: map<string, Bucket>, k: string, b: Bucket, f: Field)
    requires k !in g
    ensures FieldSum(g[k := b], f) == FieldSum(g, f) + FieldOf(b, f)
  {
    assert FieldMap(g[k := b], f) == FieldMap(g, f)[k := FieldOf(b, f)];
    MapSumUpdate(FieldMap(g, f), k, FieldOf(b, f));
  }

  /** The sums over `d`'s buckets of operator `op`: what porOperario accumulates for `op`. */
  ghost function AccFor(d: map<string, Bucket>, op: string): Acc {
    var g := Group(d, op);
    Acc(|g|, FieldSum(g, TPR), FieldSum(g, PNP), FieldSum(g, TM), FieldSum(g, RW), FieldSum(g, TOTAL))
  }

  function Operators(d: map<string, Bucket>): set<string> {
    set k | k in d :: OperatorOf(k)
  }

  const ZeroAcc := Acc(0, 0, 0, 0, 0, 0)

  /** One step of the accumulation loop: one more day and the bucket's counters added. */
  function AccAdd(r: Acc, b: Bucket): Acc {
    Acc(r.dias + 1, r.tpr + b.tpr, r.pnp + b.pnp, r.tm + b.tm, r.rw + b.rw, r.td + b.total)
  }

  /** The accumulator map after visiting the bucket `b` under key `k`. */
  function StepAcc(acc: map<string, Acc>, k: string, b: Bucket): map<string, Acc> {
    var op := OperatorOf(k);
    acc[op := AccAdd(if op in acc then acc[op] else ZeroAcc, b)]
  }

  /** The accumulator map once the loop has visited all of `d`. */
  ghost function AccMap(d: map<string, Bucket>): (r: map<string, Acc>)
    ensures r.Keys == Operators(d)
  {
    map op | op in Operators(d) :: AccFor(d, op)
  }

  lemma AccForAbsent(d: map<string, Bucket>, op: string)
    requires op !in Operators(d)
    ensures AccFor(d, op) == ZeroAcc
  {
    var g := Group(d, op);
    assert g == map[];
    assert FieldMap(g, TPR) == map[] && FieldMap(g, PNP) == map[] && FieldMap(g, TM) == map[];
    assert FieldMap(g, RW) == map[] && FieldMap(g, TOTAL) == map[];
  }

  lemma OperatorsAdd(d: map<string, Bucket>, k: string, b: Bucket)
    ensures Operators(d[k := b]) == Operators(d) + {OperatorOf(k)}
  {
  }

  lemma AccForAdded(d: map<string, Bucket>, k: string, b: Bucket)
    requires k !in d
    ensures AccFor(d[k := b], OperatorOf(k)) == AccAdd(AccFor(d, OperatorOf(k)), b)
  {
    var g := Group(d, OperatorOf(k));
    GroupAdd(d, k, b);
    FieldSumAdd(g, k, b, TPR);
    FieldSumAdd(g, k, b, PNP);
    FieldSumAdd(g, k, b, TM);
    FieldSumAdd(g, k, b, RW);
    FieldSumAdd(g, k, b, TOTAL);
  }

  lemma GroupAdd(d: map<string, Bucket>, k: string, b: Bucket)
    requires k !in d
    ensures k !in Group(d, OperatorOf(k))
    ensures Group(d[k := b], OperatorOf(k)) == Group(d, OperatorOf(k))[k := b]
    ensures |Group(d[k := b], OperatorOf(k))| == |Group(d, OperatorOf(k))| + 1
  {
    var g := Group(d, OperatorOf(k));
    assert Group(d[k := b], OperatorOf(k)) == g[k := b];
    assert g[k := b].Keys == g.Keys + {k};
  }

  lemma AccForOther(d: map<string, Bucket>, k: string, b: Bucket, o: string)
    requires o != OperatorOf(k)
    ensures AccFor(d[k := b], o) == AccFor(d, o)
  {
    assert Group(d[k := b], o) == Group(d, o);
  }

  /** Visiting one more bucket, in any order, keeps the accumulator equal to the sums. */
  lemma AccMapStep(d: map<string, Bucket>, k: string, b: Bucket)
    requires k !in d
    ensures AccMap(d[k := b]) == StepAcc(AccMap(d), k, b)
  {
    var l, r := AccMap(d[k := b]), StepAcc(AccMap(d), k, b);
    OperatorsAdd(d, k, b);
    assert l.Keys == r.Keys;
    forall o | o in l ensures l[o] == r[o] {
      AccMapAt(d, k, b, o);
    }
  }

  lemma AccMapAt(d: map<string, Bucket>, k: string, b: Bucket, o: string)
    requires k !in d && o in Operators(d) + {OperatorOf(k)}
    ensures AccFor(d[k := b], o) == StepAcc(AccMap(d), k, b)[o]
  {
    if o == OperatorOf(k) {
      AccForAdded(d, k, b);
      if o !in Operators(d) {
        AccForAbsent(d, o);
      }
    } else {
      AccForOther(d, k, b, o);
    }
  }

  function Pct(part: int, td: int): real {
    if td > 0 then (part as real / td as real) * 100.0 else 0.0
  }

  function RowOf(op: string, r: Acc): OpRow {
    OpRow(op, r.dias, r.tpr, r.td, Pct(r.tpr, r.td), Pct(r.pnp, r.td), Pct(r.tm, r.td), Pct(r.rw, r.td))
  }

  /** `d` restricted to the keys in `s`. */
  function Restrict(d: map<string, Bucket>, s: set<string>): (r: map<string, Bucket>)
    ensures r.Keys == d.Keys * s
  {
    map k | k in d && k in s :: d[k]
  }

  lemma RestrictAdd(d: map<string, Bucket>, done: set<string>, k: string)
    requires k in d && k !in done
    ensures k !in Restrict(d, done)
    ensures Restrict(d, done + {k}) == Restrict(d, done)[k := d[k]]
  {
  }

  /** The first loop of porOperario: per operator, the days and the summed counters. */
  method Accumulate(d: map<string, Bucket>) returns (acc: map<string, Acc>)
    ensures acc == AccMap(d)
    ensures acc.Keys == Operators(d) && forall op :: op in acc ==> acc[op] == AccFor(d, op)
  {
    acc := map[];
    var todo := d.Keys;
    ghost var done: set<string> := {};
    RestrictNone(d);
    while todo != {}
      invariant done == d.Keys - todo && todo <= d.Keys
      invariant acc == AccMap(Restrict(d, done))
      decreases todo
    {
      var k :| k in todo;
      AccumulateStep(d, done, k);
      acc := StepAcc(acc, k, d[k]);
      done, todo := done + {k}, todo - {k};
    }
    RestrictAll(d, done);
    AccMapContents(d, acc);
  }

  lemma RestrictNone(d: map<string, Bucket>)
    ensures AccMap(Restrict(d, {})) == map[]
  {
    assert Restrict(d, {}) == map[];
    assert Operators(map[]) == {};
  }

  lemma RestrictAll(d: map<string, Bucket>, s: set<string>)
    requires d.Keys <= s
    ensures Restrict(d, s) == d
  {
  }

  /** One turn of the loop: the accumulator for the visited keys grows by the bucket of `k`. */
  lemma AccumulateStep(d: map<string, Bucket>, done: set<string>, k: string)
    requires k in d && k !in done
    ensures AccMap(Restrict(d, done + {k})) == StepAcc(AccMap(Restrict(d, done)), k, d[k])
  {
    RestrictAdd(d, done, k);
    AccMapStep(Restrict(d, done), k, d[k]);
  }

  lemma AccMapContents(d: map<string, Bucket>, acc: map<string, Acc>)
    requires acc == AccMap(d)
    ensures acc.Keys == Operators(d) && forall op :: op in acc ==> acc[op] == AccFor(d, op)
  {
  }

  /** `[...acc.entries()].map(...)`: one row per operator, in the map's order. */
  method EntriesOf(acc: map<string, Acc>) returns (entries: seq<OpRow>)
    ensures forall i :: 0 <= i < |entries| ==>
      entries[i].operario in acc && entries[i] == RowOf(entries[i].operario, acc[entries[i].operario])
    ensures forall op :: op in acc ==> exists i :: 0 <= i < |entries| && entries[i].operario == op
    ensures Distinct(entries)
  {
    entries := [];
    var ops := acc.Keys;
    while ops != {}
      invariant ops <= acc.Keys
      invariant forall i :: 0 <= i < |entries| ==> entries[i].operario in acc.Keys - ops
      invariant forall op :: op in acc.Keys - ops ==> exists i :: 0 <= i < |entries| && entries[i].operario == op
      invariant forall i :: 0 <= i < |entries| ==> entries[i] == RowOf(entries[i].operario, acc[entries[i].operario])
      invariant Distinct(entries)
      decreases ops
    {
      var op :| op in ops;
      var entries' := entries + [RowOf(op, acc[op])];
      forall o | o in acc.Keys - (ops - {op})
        ensures exists i :: 0 <= i < |entries'| && entries'[i].operario == o
      {
        if o == op {
          assert entries'[|entries|].operario == o;
        } else {
          assert o in acc.Keys - ops;
          var i :| 0 <= i < |entries| && entries[i].operario == o;
          assert entries'[i].operario == o;
        }
      }
      entries, ops := entries', ops - {op};
    }
    assert acc.Keys - ops == acc.Keys;
  }

  /**
   * porOperario: accumulate per operator, then list the rows sorted by operator name.
   * `localeCompare` is approximated by the code-unit order.
   */
  method PorOperario(d: map<string, Bucket>) returns (rows: seq<OpRow>)
    ensures SortedBy(rows, (r: OpRow) => r.operario)
    ensures forall i, j :: 0 <= i < j < |rows| ==> rows[i].operario != rows[j].operario
    ensures forall op :: op in Operators(d) <==> exists i :: 0 <= i < |rows| && rows[i].operario == op
    ensures forall i :: 0 <= i < |rows| ==> rows[i] == RowOf(rows[i].operario, AccFor(d, rows[i].operario))
  {
    var acc := Accumulate(d);
    var entries := EntriesOf(acc);
    rows := SortBy(entries, (r: OpRow) => r.operario);
    RearrangedRows(acc, entries, rows);
  }

  /** The rows of a rearrangement of the entries are still one per operator, each from `acc`. */
  lemma RearrangedRows(acc: map<string, Acc>, entries: seq<OpRow>, rows: seq<OpRow>)
    requires forall i :: 0 <= i < |entries| ==>
      entries[i].operario in acc && entries[i] == RowOf(entries[i].operario, acc[entries[i].operario])
    requires forall op :: op in acc ==> exists i :: 0 <= i < |entries| && entries[i].operario == op
    requires Distinct(entries) && multiset(rows) == multiset(entries)
    ensures forall i, j :: 0 <= i < j < |rows| ==> rows[i].operario != rows[j].operario
    ensures forall op :: op in acc <==> exists i :: 0 <= i < |rows| && rows[i].operario == op
    ensures forall i :: 0 <= i < |rows| ==>
      rows[i].operario in acc && rows[i] == RowOf(rows[i].operario, acc[rows[i].operario])
  {
    DistinctPermutation(entries, rows);
    forall i | 0 <= i < |rows|
      ensures rows[i].operario in acc && rows[i] == RowOf(rows[i].operario, acc[rows[i].operario])
    {
      assert rows[i] in multiset(entries);
    }
    forall op | op in acc ensures exists i :: 0 <= i < |rows| && rows[i].operario == op {
      var j :| 0 <= j < |entries| && entries[j].operario == op;
      assert entries[j] in multiset(rows);
    }
  }

  /** Built as `${operario}|${fecha}` and split again, a key gives back an operator without '|'. */
  lemma OperatorOfDayKey(e: Evento)
    requires '|' !in e.operario
    ensures OperatorOf(DayKey(e)) == e.operario
  {
    FirstFieldOfJoin(e.operario, '|', e.fecha);
  }

  /** The dates on which `op` has an event. */
  function Dates(evs: seq<Evento>, op: string): set<string> {
    set e | e in evs && e.operario == op :: e.fecha
  }

  lemma JoinInjective(op: string, f: string, x: string)
    ensures op + "|" + f == op + "|" + x ==> f == x
  {
    assert (op + "|" + f)[|op| + 1..] == f;
    assert (op + "|" + x)[|op| + 1..] == x;
  }

  lemma {:induction false} JoinImageSize(op: string, ds: set<string>)
    ensures |set f | f in ds :: op + "|" + f| == |ds|
    decreases |ds|
  {
    if ds != {} {
      var x :| x in ds;
      var rest := ds - {x};
      JoinImageSize(op, rest);
      var img := set f | f in ds :: op + "|" + f;
      var imgRest := set f | f in rest :: op + "|" + f;
      assert img == imgRest + {op + "|" + x};
      forall f | f in rest ensures op + "|" + f != op + "|" + x {
        JoinInjective(op, f, x);
      }
    }
  }

  /**
   * When no operator name contains '|', `dias` of an operator is the number of distinct
   * dates on which that operator logged an event.
   */
  lemma DiasCountsDates(evs: seq<Evento>, op: string)
    requires forall e :: e in evs ==> '|' !in e.operario
    ensures |Group(DayBuckets(evs), op)| == |Dates(evs, op)|
  {
    var g := Group(DayBuckets(evs), op);
    var img := set f | f in Dates(evs, op) :: op + "|" + f;
    forall k ensures k in g.Keys <==> k in img {
      DayBucketContents(evs, k);
      if k in g.Keys {
        var e :| e in evs && DayKey(e) == k;
        OperatorOfDayKey(e);
        assert e.fecha in Dates(evs, op);
      }
      if k in img {
        var f :| f in Dates(evs, op) && k == op + "|" + f;
        var e :| e in evs && e.operario == op && e.fecha == f;
        OperatorOfDayKey(e);
        assert DayKey(e) == k;
      }
    }
    assert g.Keys == img;
    JoinImageSize(op, Dates(evs, op));
  }

  /** Every percentage of a row is 0 when `td` is not positive. */
  lemma RowPercentagesZero(op: string, r: Acc)
    requires r.td <= 0
    ensures var row := RowOf(op, r);
      row.pctProd == 0.0 && row.pctPNP == 0.0 && row.pctTM == 0.0 && row.pctRW == 0.0
  {
  }

  // ---------------------------------------------------------------------------
  // matriz

  /** `ev.bloque || "-"`. */
  function BlockOf(e: Evento): string {
    if e.bloque == "" then "-" else e.bloque
  }

  function CellKey(b: string, s: string): string {
    b + "|" + s
  }

  predicate Productive(e: Evento) {
    e.tipo == "PRODUCTIVO"
  }

  /** The cell map the matriz loop has built after visiting `evs` in order. */
  function Cells(evs: seq<Evento>): map<string, int>
  {
    if evs == [] then map[]
    else
      var m := Cells(evs[..|evs| - 1]);
      var e := evs[|evs| - 1];
      if Productive(e) then AddAt(m, CellKey(BlockOf(e), e.sistema), e.duracionMin) else m
  }

  /** The block list the matriz loop has built (a Set: first-seen order, no repeats). */
  function SeenBlocks(evs: seq<Evento>): seq<string>
  {
    if evs == [] then []
    else
      var s := SeenBlocks(evs[..|evs| - 1]);
      var e := evs[|evs| - 1];
      if Productive(e) && BlockOf(e) !in s then s + [BlockOf(e)] else s
  }

  lemma {:induction false} SeenBlocksContents(evs: seq<Evento>)
    ensures Distinct(SeenBlocks(evs))
    ensures forall b :: b in SeenBlocks(evs) <==> exists e :: e in evs && Productive(e) && BlockOf(e) == b
  {
    if evs != [] {
      var init := evs[..|evs| - 1];
      assert evs == init + [evs[|evs| - 1]];
      SeenBlocksContents(init);
    }
  }

  /** matriz: the sorted block list (no repeats) and the cell map. */
  method Matriz(evs: seq<Evento>) returns (bloques: seq<string>, m: map<string, int>)
    ensures m == Cells(evs)
    ensures SortedBy(bloques, (s: string) => s) && Distinct(bloques)
    ensures forall b :: b in bloques <==> exists e :: e in evs && Productive(e) && BlockOf(e) == b
  {
    var seen: seq<string> := [];
    m := map[];
    var i := 0;
    while i < |evs|
      invariant 0 <= i <= |evs|
      invariant m == Cells(evs[..i])
      invariant seen == SeenBlocks(evs[..i])
    {
      var e := evs[i];
      assert evs[..i + 1][..i] == evs[..i];
      if Productive(e) {
        var b := BlockOf(e);
        if b !in seen { seen := seen + [b]; }
        var key := CellKey(b, e.sistema);
        m := m[key := (if key in m then m[key] else 0) + e.duracionMin];
      }
      i := i + 1;
    }
    assert evs[..i] == evs;
    SeenBlocksContents(evs);
    bloques := SortBy(seen, (s: string) => s);
    DistinctPermutation(seen, bloques);
    forall b ensures b in bloques <==> b in seen {
      assert b in bloques <==> b in multiset(bloques);
    }
  }

  /**
   * Each cell holds the productive minutes of the events whose `${bloque||"-"}|${sistema}`
   * key is that cell's key; other types never contribute.
   */
  lemma {:induction false} CellContents(evs: seq<Evento>, key: string)
    ensures key in Cells(evs) <==>
      exists e :: e in evs && Productive(e) && CellKey(BlockOf(e), e.sistema) == key
    ensures key in Cells(evs) ==>
      Cells(evs)[key] == SumWhere(evs, e => Productive(e) && CellKey(BlockOf(e), e.sistema) == key)
  {
    if evs != [] {
      var init, e := evs[..|evs| - 1], evs[|evs| - 1];
      assert evs == init + [e];
      CellContents(init, key);
      SumWhereAppend(init, e, e => Productive(e) && CellKey(BlockOf(e), e.sistema) == key);
      if Productive(e) && CellKey(BlockOf(e), e.sistema) == key && key !in Cells(init) {
        SumWhereNone(init, e => Productive(e) && CellKey(BlockOf(e), e.sistema) == key);
      }
    }
  }

  /** Conservation: all cells together hold the productive minutes. */
  lemma {:induction false} CellsConserve(evs: seq<Evento>)
    ensures MapSum(Cells(evs)) == SumWhere(evs, e => Productive(e))
  {
    if evs != [] {
      var init, e := evs[..|evs| - 1], evs[|evs| - 1];
      CellsConserve(init);
      if Productive(e) {
        AddAtSum(Cells(init), CellKey(BlockOf(e), e.sistema), e.duracionMin);
      }
    }
  }

  /** `matriz.map.get(key) || 0`. */
  function Cell(m: map<string, int>, b: string, s: string): int {
    var key := CellKey(b, s);
    if key in m then m[key] else 0
  }

  /** The row total: `SISTEMAS.reduce((sum, s) => sum + cell, 0)`. */
  function RowTotalOver(m: map<string, int>, b: string, systems: seq<string>): int {
    if systems == [] then 0
    else RowTotalOver(m, b, systems[..|systems| - 1]) + Cell(m, b, systems[|systems| - 1])
  }

  function RowTotal(m: map<string, int>, b: string): int {
    RowTotalOver(m, b, Sistemas)
  }

  /** A row total is the sum of the row's HVAC, PIPE and CBTR cells. */
  lemma RowTotalIsSumOfCells(m: map<string, int>, b: string)
    ensures RowTotal(m, b) == Cell(m, b, "HVAC") + Cell(m, b, "PIPE") + Cell(m, b, "CBTR")
  {
    var s2, s1: seq<string> := ["HVAC", "PIPE"], ["HVAC"];
    assert Sistemas[..2] == s2 && s2[..1] == s1 && s1[..0] == [];
    assert RowTotalOver(m, b, s1) == Cell(m, b, "HVAC");
    assert RowTotalOver(m, b, s2) == RowTotalOver(m, b, s1) + Cell(m, b, "PIPE");
  }

  /**
   * When no block contains '|', a cell holds exactly the productive minutes of that
   * block and that system.
   */
  lemma CellOfBlockAndSystem(evs: seq<Evento>, b: string, s: string)
    requires forall e :: e in evs ==> '|' !in BlockOf(e)
    requires '|' !in b
    ensures Cell(Cells(evs), b, s) == SumWhere(evs, e => Productive(e) && BlockOf(e) == b && e.sistema == s)
  {
    var key := CellKey(b, s);
    CellContents(evs, key);
    forall e | e in evs
      ensures (Productive(e) && CellKey(BlockOf(e), e.sistema) == key)
          == (Productive(e) && BlockOf(e) == b && e.sistema == s)
    {
      if CellKey(BlockOf(e), e.sistema) == key {
        FirstFieldOfJoin(BlockOf(e), '|', e.sistema);
        FirstFieldOfJoin(b, '|', s);
        assert BlockOf(e) == b;
        assert e.sistema == key[|b| + 1..] == s;
      }
    }
    SumWhereSame(evs, e => Productive(e) && CellKey(BlockOf(e), e.sistema) == key,
                      e => Productive(e) && BlockOf(e) == b && e.sistema == s);
    if key !in Cells(evs) {
      SumWhereNone(evs, e => Productive(e) && BlockOf(e) == b && e.sistema == s);
    }
  }

  lemma {:induction false} SumWhereSame(evs: seq<Evento>, p: Evento -> bool, q: Evento -> bool)
    requires forall e :: e in evs ==> p(e) == q(e)
    ensures SumWhere(evs, p) == SumWhere(evs, q)
  {
    if evs != [] {
      SumWhereSame(evs[..|evs| - 1], p, q);
    }
  }
}
