/**
 * The CGT calculator: a factor chosen from a table by ship type or typed in, the CGT shown
 * for the current input, and a history of at most ten calculations, newest first.
 */
module CalculadoraCgt {
  import opened Js

  /** A JS number as the calculator uses it: a finite decimal value or NaN. */
  datatype Num = Finite(x: real) | NotNumber

  function Mul(a: Num, b: Num): (r: Num)
    ensures r.Finite? <==> a.Finite? && b.Finite?
    ensures r.Finite? ==> r.x == a.x * b.x
  {
    if a.NotNumber? || b.NotNumber? then NotNumber else Finite(a.x * b.x)
  }

  function Pow10(n: nat): (r: nat)
    ensures r >= 1
  {
    if n == 0 then 1 else 10 * Pow10(n - 1)
  }

  /** Digits with at most one '.', and at least one digit: "12", "0.45", ".5" and "5." all read. */
  function Unsigned(s: string): Num {
    var i := FirstField(s, '.');
    var f := if |i| < |s| then s[|i| + 1..] else "";
    if AllDigits(i) && AllDigits(f) && |i| + |f| > 0 && (|i| < |s| || i != [])
    then Finite(DigitsValue(i) as real + DigitsValue(f) as real / Pow10(|f|) as real)
    else NotNumber
  }

  /**
   * `Number(s)` on the decimal texts a number field produces: surrounding white space is
   * ignored, the empty text is 0, a sign may lead, and anything else is NaN.
   */
  function ToNum(s: string): Num {
    var t := Trim(s);
    if t == [] then Finite(0.0)
    else if t[0] == '-' || t[0] == '+' then
      var u := Unsigned(t[1..]);
      if u.NotNumber? then NotNumber else if t[0] == '-' then Finite(-u.x) else u
    else Unsigned(t)
  }

  /** On integer texts this reading agrees with the integer one used elsewhere. */
  lemma ToNumExtendsParseNumber(s: string)
    requires ParseNumber(s).Int?
    ensures ToNum(s) == Finite(ParseNumber(s).v as real)
  {
    var t := Trim(s);
    if t != [] && (t[0] == '-' || t[0] == '+') && |t| > 1 && AllDigits(t[1..]) {
      NoDotInDigits(t[1..]);
    } else if t != [] && AllDigits(t) {
      assert t[0] != '-' && t[0] != '+';
      NoDotInDigits(t);
    }
  }

  lemma NoDotInDigits(d: string)
    requires AllDigits(d) && d != []
    ensures Unsigned(d) == Finite(DigitsValue(d) as real)
  {
    assert '.' !in d by {
      forall k | 0 <= k < |d|
        ensures d[k] != '.'
      {
        assert IsDigit(d[k]);
      }
    }
    FirstFieldWithoutSeparator(d, '.');
  }

  lemma {:induction false} FirstFieldWithoutSeparator(s: string, sep: char)
    requires sep !in s
    ensures FirstField(s, sep) == s
  {
    if s != [] {
      assert sep !in s[1..];
      FirstFieldWithoutSeparator(s[1..], sep);
    }
  }

  /** A typed-in factor of "0.60" reads as 0.6. */
  lemma DecimalExample()
    ensures ToNum("0.60") == Finite(0.6)
  {
    assert Trim("0.60") == "0.60" by {
      assert !IsSpace('0');
      assert TrimStart("0.60") == "0.60";
      assert TrimEnd("0.60") == "0.60";
    }
    assert FirstField("0.60", '.') == "0";
    assert "0.60"[2..] == "60";
    assert DigitsValue("60") == 60 by {
      assert "60"[..1] == "6";
      assert "6"[..0] == "";
    }
  }

  /** `DEFAULT_FACTORS`, in its key order. */
  const DefaultFactors: seq<(string, real)> := [
    ("Petrolero (Oil Tanker)", 0.45),
    ("Granelero (Bulk Carrier)", 0.36),
    ("Portacontenedores (Container Ship)", 0.60),
    ("Gasero (LNG/LPG)", 0.73),
    ("Pasajeros / Crucero", 1.90),
    ("Carga General", 0.45),
    ("Ferry Ro-Ro", 1.00),
    ("Pesquero", 0.52),
    ("Militar", 1.50),
    ("Remolcador / Supply", 0.75)
  ]

  /** `DEFAULT_FACTORS[shipType]`, when the key exists. */
  function Lookup(table: seq<(string, real)>, key: string): (r: Option<real>)
    ensures r.Some? <==> exists i :: 0 <= i < |table| && table[i].0 == key
    ensures r.Some? ==> exists i :: 0 <= i < |table| && table[i] == (key, r.value)
  {
    if table == [] then None
    else if table[0].0 == key then Some(table[0].1)
    else
      var r := Lookup(table[1..], key);
      assert forall i :: 1 <= i < |table| ==> table[i] == table[1..][i - 1];
      r
  }

  /** The ten factors are positive, so `|| 0` only applies to a ship type outside the table. */
  lemma DefaultFactorsPositive()
    ensures |DefaultFactors| == 10
    ensures forall i :: 0 <= i < |DefaultFactors| ==> DefaultFactors[i].1 > 0.0
  {
  }

  /** The calculator's state; `gt` is the text of the GT field, "0" for the initial number 0. */
  datatype Calc = Calc(gt: string, shipType: string, customFactor: string, useCustom: bool, history: seq<Entry>)

  /** A history entry; `id` and `date` stand for Date.now() and the formatted date. */
  datatype Entry = Entry(id: int, gt: Num, shipType: string, factor: Num, cgt: Num, date: string)

  const MaxHistory := 10

  const Initial: Calc := Calc("0", DefaultFactors[0].0, "", false, [])

  /** `factor` */
  function Factor(c: Calc): Num {
    if c.useCustom && c.customFactor != "" then ToNum(c.customFactor)
    else
      var v := Lookup(DefaultFactors, c.shipType);
      if v.Some? then Finite(v.value) else Finite(0.0)
  }

  lemma FactorSelection(c: Calc)
    ensures c.useCustom && c.customFactor != "" ==> Factor(c) == ToNum(c.customFactor)
    ensures !(c.useCustom && c.customFactor != "") ==>
      && (forall i :: 0 <= i < |DefaultFactors| && DefaultFactors[i].0 == c.shipType ==>
            Factor(c) == Finite(DefaultFactors[i].1))
      && ((forall i :: 0 <= i < |DefaultFactors| ==> DefaultFactors[i].0 != c.shipType) ==> Factor(c) == Finite(0.0))
  {
    if !(c.useCustom && c.customFactor != "") {
      forall i | 0 <= i < |DefaultFactors| && DefaultFactors[i].0 == c.shipType
        ensures Factor(c) == Finite(DefaultFactors[i].1)
      {
        FactorOfRow(c, i);
      }
    }
  }

  /** Without a custom factor, a ship type from row `i` of the table gets that row's factor. */
  lemma FactorOfRow(c: Calc, i: nat)
    requires !(c.useCustom && c.customFactor != "")
    requires i < |DefaultFactors| && DefaultFactors[i].0 == c.shipType
    ensures Factor(c) == Finite(DefaultFactors[i].1)
  {
    var v := Lookup(DefaultFactors, c.shipType);
    var k :| 0 <= k < |DefaultFactors| && DefaultFactors[k] == (c.shipType, v.value);
    ShipTypesDistinct(i, k);
  }

  /** No two rows of the table have the same ship type. */
  lemma ShipTypesDistinct(i: nat, k: nat)
    requires i < |DefaultFactors| && k < |DefaultFactors| && DefaultFactors[i].0 == DefaultFactors[k].0
    ensures i == k
  {
    var names := seq(|DefaultFactors|, j requires 0 <= j < |DefaultFactors| => |DefaultFactors[j].0|);
    assert names == [22, 24, 34, 16, 19, 13, 11, 8, 7, 19];
    assert DefaultFactors[4].0[0] != DefaultFactors[9].0[0];
  }

  predicate Positive(n: Num) {
    n.Finite? && n.x > 0.0
  }

  /** `cgt`: the product only when GT is positive, otherwise 0. */
  function Cgt(c: Calc): Num {
    var g := ToNum(c.gt);
    if Positive(g) then Mul(g, Factor(c)) else Finite(0.0)
  }

  lemma CgtGuard(c: Calc)
    ensures !Positive(ToNum(c.gt)) ==> Cgt(c) == Finite(0.0)
    ensures Positive(ToNum(c.gt)) ==> Cgt(c) == Mul(ToNum(c.gt), Factor(c))
  {
  }

  /** `Number(x.toFixed(2))`: the nearest hundredth, halves away from zero. */
  function Round2(x: real): (r: real)
    ensures -0.005 <= r - x <= 0.005
  {
    if x >= 0.0 then (x * 100.0 + 0.5).Floor as real / 100.0
    else -((-x * 100.0 + 0.5).Floor as real / 100.0)
  }

  function RoundNum(n: Num): Num {
    if n.NotNumber? then NotNumber else Finite(Round2(n.x))
  }

  /** The entry handleCalculate records. */
  function NewEntry(c: Calc, id: int, date: string): Entry {
    var g := ToNum(c.gt);
    Entry(id, g, c.shipType, Factor(c), RoundNum(Mul(g, Factor(c))), date)
  }

  /**
   * `[e, ...h].slice(0, 10)`: the new entry first, at most ten kept, and the rest a prefix
   * of the old history.
   */
  function Prepend(e: Entry, h: seq<Entry>): (r: seq<Entry>)
    ensures |r| == (if |h| < MaxHistory then |h| + 1 else MaxHistory)
    ensures r[0] == e && r[1..] == h[..|r| - 1]
  {
    var l := [e] + h;
    if |l| <= MaxHistory then l else l[..MaxHistory]
  }

  /** handleCalculate */
  function Calculate(c: Calc, id: int, date: string): Calc {
    c.(history := Prepend(NewEntry(c, id, date), c.history))
  }

  /** Calculating changes nothing but the history, which never holds more than ten entries. */
  lemma CalculateContract(c: Calc, id: int, date: string)
    ensures |Calculate(c, id, date).history| <= MaxHistory
    ensures Calculate(c, id, date).history[0] == NewEntry(c, id, date)
    ensures Calculate(c, id, date).history[1..] == c.history[..|Calculate(c, id, date).history| - 1]
    ensures Calculate(c, id, date).(history := c.history) == c
  {
  }

  /** The new entry records the GT, ship type and factor in force, and the given id and date. */
  lemma CalculateEntry(c: Calc, id: int, date: string)
    ensures var e := Calculate(c, id, date).history[0];
      && e.gt == ToNum(c.gt) && e.factor == Factor(c) && e.shipType == c.shipType
      && e.id == id && e.date == date
  {
  }

  lemma EntryCgt(c: Calc, id: int, date: string)
    ensures Calculate(c, id, date).history[0].cgt == RoundNum(Mul(ToNum(c.gt), Factor(c)))
  {
  }

  /** The entry's CGT is the product rounded to hundredths, with no positivity guard. */
  lemma EntryHasNoGuard(c: Calc, id: int, date: string)
    ensures var e := Calculate(c, id, date).history[0];
      && (e.cgt.Finite? <==> ToNum(c.gt).Finite? && Factor(c).Finite?)
      && (e.cgt.Finite? ==> -0.005 <= e.cgt.x - ToNum(c.gt).x * Factor(c).x <= 0.005)
  {
  }

  /**
   * A negative GT with a positive factor is recorded with a negative CGT, while the
   * display shows 0.
   */
  lemma NegativeGtRecorded(c: Calc, id: int, date: string)
    requires ToNum(c.gt).Finite? && Factor(c).Finite?
    requires ToNum(c.gt).x < 0.0 && Factor(c).x > 0.0 && ToNum(c.gt).x * Factor(c).x <= -0.01
    ensures Calculate(c, id, date).history[0].cgt.x < 0.0
    ensures Cgt(c) == Finite(0.0)
  {
    EntryCgt(c, id, date);
    CgtGuard(c);
  }

  /** handleReset: GT back to 0 and no custom factor; the ship type and history stay. */
  function Reset(c: Calc): (r: Calc)
    ensures ToNum(r.gt) == Finite(0.0) && !r.useCustom && r.customFactor == ""
    ensures r.shipType == c.shipType && r.history == c.history
  {
    ZeroText();
    c.(gt := "0", customFactor := "", useCustom := false)
  }

  lemma ZeroText()
    ensures ToNum("0") == Finite(0.0)
  {
    assert "0"[..0] == "";
    DigitsToNum("0");
  }

  /** A text of digits reads as its decimal value. */
  lemma DigitsToNum(d: string)
    requires d != [] && AllDigits(d)
    ensures ToNum(d) == Finite(DigitsValue(d) as real)
  {
    assert IsDigit(d[0]) && IsDigit(d[|d| - 1]);
    TrimUnpadded(d);
    NoDotInDigits(d);
  }

  /** "Limpiar": the history emptied, then a reset. */
  function Clear(c: Calc): (r: Calc)
    ensures r.history == [] && r.shipType == c.shipType
    ensures ToNum(r.gt) == Finite(0.0) && !r.useCustom && r.customFactor == ""
  {
    Reset(c.(history := []))
  }

  /** After a reset or a clear the displayed CGT is 0. */
  lemma ResetShowsZero(c: Calc)
    ensures Cgt(Reset(c)) == Finite(0.0) && Cgt(Clear(c)) == Finite(0.0)
  {
    CgtGuard(Reset(c));
    CgtGuard(Clear(c));
  }
}
