/**
 * JavaScript value semantics that the front end relies on: plain objects with an open
 * set of fields, truthiness, Number(), the string helpers it calls (toLowerCase, trim,
 * includes, startsWith) and the default string order of Array.prototype.sort.
 */
module Js {

  datatype Option<+T> = None | Some(value: T)

  /** A value stored in a plain object, a JSON document or a Firestore document. */
  datatype Value =
    | Undefined
    | Null
    | Bool(b: bool)
    | Num(n: int)
    | Str(s: string)
    | ServerStamp   // the serverTimestamp() sentinel / a Firestore Timestamp

  /** A thrown error: its constructor name, its `code` ("" when it has none) and its message. */
  datatype JsError = JsError(name: string, code: string, message: string)

  /** How an awaited call ends: with a value or with a thrown error. */
  datatype Outcome<+T> = Return(value: T) | Throw(err: JsError)

  /** A plain object: the fields it has, each with its value. */
  type Obj = map<string, Value>

  /** `o[k]`: a missing field reads as undefined. */
  function Get(o: Obj, k: string): (v: Value)
    ensures k !in o ==> v == Undefined
    ensures k in o ==> v == o[k]
  {
    if k in o then o[k] else Undefined
  }

  /** The JS truthiness test `if (v)` / `!!v`. */
  predicate Truthy(v: Value) {
    match v
    case Undefined => false
    case Null => false
    case Bool(b) => b
    case Num(n) => n != 0
    case Str(s) => s != ""
    case ServerStamp => true
  }

  /** `a || b`: the first operand when it is truthy, otherwise the second. */
  function Or(a: Value, b: Value): Value {
    if Truthy(a) then a else b
  }

  /** A JS number restricted to integers: an integer or NaN. */
  datatype Number = Int(v: int) | NaN

  /** `a + b` on numbers: NaN is absorbing. */
  function Add(a: Number, b: Number): (r: Number)
    ensures r.Int? <==> a.Int? && b.Int?
    ensures r.Int? ==> r.v == a.v + b.v
  {
    if a.Int? && b.Int? then Int(a.v + b.v) else NaN
  }

  /** `!n` for a number: true for 0 and NaN. */
  predicate Falsy(n: Number) {
    n.NaN? || n.v == 0
  }

  predicate IsDigit(c: char) {
    '0' <= c <= '9'
  }

  predicate AllDigits(s: string) {
    forall i :: 0 <= i < |s| ==> IsDigit(s[i])
  }

  /** The value of a string of decimal digits. */
  function DigitsValue(s: string): (n: nat)
    requires AllDigits(s)
  {
    if s == [] then 0
    else 10 * DigitsValue(s[..|s| - 1]) + ((s[|s| - 1] as int) - ('0' as int))
  }

  /**
   * The white space and line terminators that String.prototype.trim, Number() and the
   * regular-expression class `\s` agree on.
   */
  predicate IsSpace(c: char) {
    c == ' ' || c == '\t' || c == '\n' || c == '\r'
    || c as int == 11 || c as int == 12 || c as int == 0xA0 || c as int == 0x1680
    || 0x2000 <= c as int <= 0x200A || c as int == 0x2028 || c as int == 0x2029
    || c as int == 0x202F || c as int == 0x205F || c as int == 0x3000 || c as int == 0xFEFF
  }

  function TrimStart(s: string): (r: string)
    ensures |r| <= |s| && r == s[|s| - |r|..]
    ensures r != [] ==> !IsSpace(r[0])
  {
    if s != [] && IsSpace(s[0]) then TrimStart(s[1..]) else s
  }

  function TrimEnd(s: string): (r: string)
    ensures |r| <= |s| && r == s[..|r|]
    ensures r != [] ==> !IsSpace(r[|r| - 1])
  {
    if s != [] && IsSpace(s[|s| - 1]) then TrimEnd(s[..|s| - 1]) else s
  }

  /** `s.trim()`. */
  function Trim(s: string): (r: string)
    ensures r != [] ==> !IsSpace(r[0]) && !IsSpace(r[|r| - 1])
  {
    TrimEnd(TrimStart(s))
  }

  /** Text with no white space at either end is its own trim. */
  lemma TrimUnpadded(s: string)
    requires s != [] && !IsSpace(s[0]) && !IsSpace(s[|s| - 1])
    ensures Trim(s) == s
  {
    assert TrimStart(s) == s;
  }

  /** What trimming removes is white space. */
  lemma {:induction false} TrimStartStripsSpaces(s: string)
    ensures forall i :: 0 <= i < |s| - |TrimStart(s)| ==> IsSpace(s[i])
  {
    if s != [] && IsSpace(s[0]) {
      var t := s[1..];
      TrimStartStripsSpaces(t);
      assert TrimStart(s) == TrimStart(t);
      SpacesShift(s, t, |s| - |TrimStart(s)|);
    }
  }

  lemma SpacesShift(s: string, t: string, n: int)
    requires s != [] && IsSpace(s[0]) && t == s[1..] && n <= |s|
    requires forall i :: 0 <= i < n - 1 ==> IsSpace(t[i])
    ensures forall i :: 0 <= i < n ==> IsSpace(s[i])
  {
    forall i | 0 <= i < n
      ensures IsSpace(s[i])
    {
      if i > 0 {
        assert s[i] == t[i - 1];
      }
    }
  }

  lemma {:induction false} TrimEndStripsSpaces(s: string)
    ensures forall i :: |TrimEnd(s)| <= i < |s| ==> IsSpace(s[i])
  {
    if s != [] && IsSpace(s[|s| - 1]) {
      var t := s[..|s| - 1];
      TrimEndStripsSpaces(t);
      assert TrimEnd(s) == TrimEnd(t);
      forall i | |TrimEnd(s)| <= i < |s|
        ensures IsSpace(s[i])
      {
        if i < |s| - 1 {
          assert s[i] == t[i];
        }
      }
    }
  }

  /**
   * `s.trim()` is the slice of `s` between its leading and its trailing white space:
   * it starts and ends with a non-space character, and everything cut off is white space.
   */
  lemma TrimSpec(s: string)
    ensures exists i, j | 0 <= i <= j <= |s| ::
      && Trim(s) == s[i..j]
      && (forall k :: 0 <= k < i ==> IsSpace(s[k]))
      && (forall k :: j <= k < |s| ==> IsSpace(s[k]))
    ensures Trim(s) != [] ==> !IsSpace(Trim(s)[0]) && !IsSpace(Trim(s)[|Trim(s)| - 1])
  {
    var t := TrimStart(s);
    var u := TrimEnd(t);
    var i := |s| - |t|;
    var j := i + |u|;
    TrimStartStripsSpaces(s);
    TrimEndStripsSpaces(t);
    SuffixSlice(s, i, t, u);
    assert Trim(s) == u;
  }

  /** A prefix `u` of the suffix `t` of `s` from `i` is a slice of `s`, and what follows it in `t` follows it in `s`. */
  lemma SuffixSlice(s: string, i: int, t: string, u: string)
    requires 0 <= i <= |s| && t == s[i..] && |u| <= |t| && u == t[..|u|]
    requires forall k :: |u| <= k < |t| ==> IsSpace(t[k])
    ensures u == s[i..i + |u|]
    ensures forall k :: i + |u| <= k < |s| ==> IsSpace(s[k])
  {
    forall k | i + |u| <= k < |s| ensures IsSpace(s[k]) {
      assert s[k] == t[k - i];
    }
  }

  /** Trimming twice is trimming once. */
  lemma TrimIdempotent(s: string)
    ensures Trim(Trim(s)) == Trim(s)
  {
    var r := Trim(s);
    assert TrimStart(r) == r;
    assert TrimEnd(r) == r;
  }

  /**
   * `Number(s)` for a string, restricted to integers: surrounding white space is
   * ignored, the empty string is 0, an optional sign may precede the digits, and
   * anything else is NaN.
   */
  function ParseNumber(s: string): (r: Number)
  {
    var t := Trim(s);
    if t == [] then Int(0)
    else if (t[0] == '-' || t[0] == '+') && |t| > 1 && AllDigits(t[1..]) then
      var d: int := DigitsValue(t[1..]);
      Int(if t[0] == '-' then -d else d)
    else if AllDigits(t) then Int(DigitsValue(t))
    else NaN
  }

  /** `Number(v)`. */
  function ToNumber(v: Value): (r: Number)
  {
    match v
    case Undefined => NaN
    case Null => Int(0)
    case Bool(b) => Int(if b then 1 else 0)
    case Num(n) => Int(n)
    case Str(s) => ParseNumber(s)
    case ServerStamp => NaN
  }

  /** `Number(v) || 0`: NaN becomes 0. */
  function NumberOrZero(v: Value): (n: int)
    ensures ToNumber(v).Int? ==> n == ToNumber(v).v
    ensures ToNumber(v).NaN? ==> n == 0
  {
    match ToNumber(v)
    case Int(k) => k
    case NaN => 0
  }

  function DigitChar(d: nat): (c: char)
    requires d < 10
    ensures IsDigit(c) && (c as int) - ('0' as int) == d
  {
    ('0' as int + d) as char
  }

  /** The decimal digits of `n`, most significant first, without leading zeros. */
  function NatToString(n: nat): (s: string)
    ensures s != [] && AllDigits(s)
    ensures DigitsValue(s) == n
    ensures |s| > 1 ==> s[0] != '0'
  {
    if n < 10 then [DigitChar(n)]
    else
      var s := NatToString(n / 10) + [DigitChar(n % 10)];
      assert s[..|s| - 1] == NatToString(n / 10);
      s
  }

  /** `String(n)` for an integer. */
  function IntToString(i: int): string {
    if i < 0 then "-" + NatToString(-i) else NatToString(i)
  }

  lemma NoSpaceInDigits(s: string)
    requires AllDigits(s)
    ensures forall i :: 0 <= i < |s| ==> !IsSpace(s[i])
  {
  }

  /** Reading back a printed integer with Number() gives the integer. */
  lemma ParseIntToString(i: int)
    ensures ParseNumber(IntToString(i)) == Int(i)
  {
    var s := IntToString(i);
    NoSpaceInDigits(NatToString(if i < 0 then -i else i));
    assert s != [] && !IsSpace(s[0]) && !IsSpace(s[|s| - 1]);
    assert TrimStart(s) == s;
    assert TrimEnd(s) == s;
    if i < 0 {
      assert s[1..] == NatToString(-i);
    }
  }

  /** `String(v)`, as used for template literals and object keys. */
  function JsString(v: Value): string {
    match v
    case Undefined => "undefined"
    case Null => "null"
    case Bool(b) => if b then "true" else "false"
    case Num(n) => IntToString(n)
    case Str(s) => s
    case ServerStamp => "[object Object]"
  }

  /** `c.toLowerCase()` for one character: ASCII and Latin-1 capitals. */
  function LowerChar(c: char): char {
    if 'A' <= c <= 'Z' || ('À' <= c <= 'Þ' && c != '×') then
      (c as int + 32) as char
    else c
  }

  /** `s.toLowerCase()`. */
  function ToLower(s: string): (r: string)
    ensures |r| == |s|
    ensures forall i :: 0 <= i < |s| ==> r[i] == LowerChar(s[i])
  {
    seq(|s|, i requires 0 <= i < |s| => LowerChar(s[i]))
  }

  /** `s.startsWith(p)`. */
  predicate StartsWith(s: string, p: string) {
    |p| <= |s| && s[..|p|] == p
  }

  /** `s.includes(t)`. */
  predicate Includes(s: string, t: string)
    decreases |s|
  {
    StartsWith(s, t) || (s != [] && Includes(s[1..], t))
  }

  lemma IncludesEmpty(s: string)
    ensures Includes(s, "")
  {
  }

  /** `s.split(sep)[0]`: the part of `s` before the first `sep`. */
  function FirstField(s: string, sep: char): (r: string)
    ensures |r| <= |s| && r == s[..|r|]
    ensures sep !in r
    ensures |r| < |s| ==> s[|r|] == sep
  {
    if s == [] || s[0] == sep then "" else [s[0]] + FirstField(s[1..], sep)
  }

  lemma {:induction false} FirstFieldOfJoin(a: string, sep: char, b: string)
    requires sep !in a
    ensures FirstField(a + [sep] + b, sep) == a
  {
    if a != [] {
      assert (a + [sep] + b)[1..] == a[1..] + [sep] + b;
      FirstFieldOfJoin(a[1..], sep, b);
    }
  }

  /**
   * `String.prototype.length`: the number of UTF-16 code units, two for a character
   * outside the Basic Multilingual Plane.
   */
  function Utf16Length(s: string): (n: nat)
    ensures |s| <= n <= 2 * |s|
    ensures (forall i :: 0 <= i < |s| ==> s[i] as int <= 0xFFFF) ==> n == |s|
  {
    if s == [] then 0 else (if s[0] as int > 0xFFFF then 2 else 1) + Utf16Length(s[1..])
  }

  /** Three astral characters are six code units long. */
  lemma Utf16LengthAstral()
    ensures Utf16Length("\U{1F600}\U{1F600}\U{1F600}") == 6
  {
    var s := "\U{1F600}\U{1F600}\U{1F600}";
    assert s[1..][1..][1..] == [];
  }

  /**
   * The position of a character's UTF-16 encoding in code-unit order. A character
   * outside the Basic Multilingual Plane begins with a high surrogate (0xD800 to 0xDBFF),
   * so it sorts after the characters below 0xD800 and before those from 0xE000 to 0xFFFF.
   */
  function CodeUnitRank(c: char): (r: int)
    ensures c as int < 0xD800 ==> r == c as int
    ensures 0xE000 <= c as int <= 0xFFFF ==> r > 0x10_D7FF
    ensures c as int > 0xFFFF ==> 0xD800 <= r <= 0x10_D7FF
  {
    if c as int < 0xD800 then c as int
    else if c as int <= 0xFFFF then c as int + 0x10_0000
    else c as int - 0x2800
  }

  /** Different characters have different ranks, so the ranks order characters strictly. */
  lemma CodeUnitRankInjective(c: char, d: char)
    requires c != d
    ensures CodeUnitRank(c) != CodeUnitRank(d)
  {
    assert c as int != d as int;
  }

  /**
   * The order of the default `Array.prototype.sort`: the first UTF-16 code unit where the
   * texts differ decides, and a proper prefix comes first.
   */
  predicate LexLessEq(a: string, b: string) {
    if a == [] then true
    else if b == [] then false
    else if a[0] != b[0] then CodeUnitRank(a[0]) < CodeUnitRank(b[0])
    else LexLessEq(a[1..], b[1..])
  }

  /** An astral character sorts before U+FFFD, although its scalar value is larger. */
  lemma AstralBeforeHighPlane()
    ensures LexLessEq("\U{1F600}", "\U{FFFD}") && !LexLessEq("\U{FFFD}", "\U{1F600}")
  {
  }

  lemma {:induction false} LexTotal(a: string, b: string)
    ensures LexLessEq(a, b) || LexLessEq(b, a)
  {
    if a != [] && b != [] {
      if a[0] == b[0] {
        LexTotal(a[1..], b[1..]);
      } else {
        CodeUnitRankInjective(a[0], b[0]);
      }
    }
  }

  lemma {:induction false} LexTransitive(a: string, b: string, c: string)
    requires LexLessEq(a, b) && LexLessEq(b, c)
    ensures LexLessEq(a, c)
  {
    if a != [] && b != [] && c != [] && a[0] == b[0] && b[0] == c[0] {
      LexTransitive(a[1..], b[1..], c[1..]);
    }
  }

  lemma {:induction false} LexAntisymmetric(a: string, b: string)
    requires LexLessEq(a, b) && LexLessEq(b, a)
    ensures a == b
  {
    if a != [] && b != [] {
      LexAntisymmetric(a[1..], b[1..]);
      assert a == [a[0]] + a[1..] && b == [b[0]] + b[1..];
    }
  }

  /** `xs` is in ascending order of `key`. */
  ghost predicate SortedBy<T>(xs: seq<T>, key: T -> string) {
    forall i, j :: 0 <= i < j < |xs| ==> LexLessEq(key(xs[i]), key(xs[j]))
  }

  /** Inserts `x` before the first element whose key is not below it. */
  function InsertBy<T>(xs: seq<T>, x: T, key: T -> string): (r: seq<T>)
    ensures multiset(r) == multiset(xs) + multiset{x}
    ensures SortedBy(xs, key) ==> SortedBy(r, key)
  {
    if xs == [] then [x]
    else if LexLessEq(key(x), key(xs[0])) then
      var r := [x] + xs;
      assert SortedBy(xs, key) ==> SortedBy(r, key) by {
        if SortedBy(xs, key) {
          InsertFirstSorted(xs, x, key);
        }
      }
      r
    else
      var rest := InsertBy(xs[1..], x, key);
      var r := [xs[0]] + rest;
      assert xs == [xs[0]] + xs[1..];
      assert SortedBy(xs, key) ==> SortedBy(r, key) by {
        if SortedBy(xs, key) {
          InsertLaterSorted(xs, x, rest, key);
        }
      }
      r
  }

  lemma InsertFirstSorted<T>(xs: seq<T>, x: T, key: T -> string)
    requires xs != [] && SortedBy(xs, key) && LexLessEq(key(x), key(xs[0]))
    ensures SortedBy([x] + xs, key)
  {
    var r := [x] + xs;
    forall i, j | 0 <= i < j < |r|
      ensures LexLessEq(key(r[i]), key(r[j]))
    {
      if i == 0 && j > 1 {
        LexTransitive(key(x), key(xs[0]), key(r[j]));
      }
    }
  }

  lemma InsertLaterSorted<T>(xs: seq<T>, x: T, rest: seq<T>, key: T -> string)
    requires xs != [] && SortedBy(xs, key) && !LexLessEq(key(x), key(xs[0]))
    requires SortedBy(rest, key) && multiset(rest) == multiset(xs[1..]) + multiset{x}
    ensures SortedBy([xs[0]] + rest, key)
  {
    var r := [xs[0]] + rest;
    LexTotal(key(x), key(xs[0]));
    forall i, j | 0 <= i < j < |r|
      ensures LexLessEq(key(r[i]), key(r[j]))
    {
      if i == 0 {
        assert r[j] == rest[j - 1];
        assert r[j] in multiset(rest);
        if r[j] != x {
          assert r[j] in multiset(xs[1..]);
          var k :| 0 <= k < |xs[1..]| && xs[1..][k] == r[j];
          assert xs[k + 1] == r[j];
        }
      } else {
        assert r[i] == rest[i - 1] && r[j] == rest[j - 1];
      }
    }
  }

  /** `xs.sort(byKey)`: a sorted permutation of `xs`. */
  function SortBy<T>(xs: seq<T>, key: T -> string): (r: seq<T>)
    ensures multiset(r) == multiset(xs)
    ensures SortedBy(r, key)
  {
    if xs == [] then []
    else
      assert xs == xs[..|xs| - 1] + [xs[|xs| - 1]];
      InsertBy(SortBy(xs[..|xs| - 1], key), xs[|xs| - 1], key)
  }

  /** `a` is `b` with some elements removed, in the same order. */
  predicate Subsequence<T(==)>(a: seq<T>, b: seq<T>) {
    if a == [] then true
    else if b == [] then false
    else (a[0] == b[0] && Subsequence(a[1..], b[1..])) || Subsequence(a, b[1..])
  }

  /** A subsequence of a list's tail is one of the list, with or without the list's head in front. */
  lemma {:induction false} SubsequenceOfTail<T>(a: seq<T>, b: seq<T>)
    requires b != [] && Subsequence(a, b[1..])
    ensures Subsequence(a, b) && Subsequence([b[0]] + a, b)
  {
    assert ([b[0]] + a)[1..] == a;
  }
}
