/**
  The PHP values the library passes around, and the few pieces of PHP's own
  semantics the library's decisions depend on: `is_null`, `empty`, truthiness,
  `isset($a[$k])`, `count`, string conversion and `implode`.

  A PHP array is either a list (`Arr`) or a keyed array (`Obj`). The insertion
  order of a keyed array is not kept; where PHP's output depends on it, the
  model takes that output as an abstract input (see Client.Codec).
*/
module Php {

  datatype Option<+T> = None | Some(value: T)

  datatype Val =
    | Null
    | Bool(b: bool)
    | Int(i: int)
    | Str(s: string)
    | Arr(items: seq<Val>)
    | Obj(fields: map<string, Val>)

  /** `is_null($v)` */
  predicate IsNull(v: Val) {
    v.Null?
  }

  /** `is_array($v)` */
  predicate IsArray(v: Val) {
    v.Arr? || v.Obj?
  }

  /** `empty($v)` for a defined value: null, false, 0, "", "0" and the empty array. */
  predicate Empty(v: Val) {
    match v
    case Null => true
    case Bool(b) => !b
    case Int(i) => i == 0
    case Str(s) => |s| == 0 || (|s| == 1 && s[0] == '0')
    case Arr(items) => items == []
    case Obj(fields) => fields == map[]
  }

  /** The truth value PHP gives `if ($v)`: exactly the negation of `empty`. */
  predicate Truthy(v: Val) {
    !Empty(v)
  }

  lemma {:induction false} EmptyIsNotIsNull()
    ensures Empty(Str("")) && !IsNull(Str(""))
    ensures Empty(Arr([])) && !IsNull(Arr([]))
    ensures Empty(Int(0)) && Empty(Str("0")) && Empty(Bool(false))
    ensures forall v :: IsNull(v) ==> Empty(v)
  {
  }

  // ---------------------------------------------------------------------------
  // Decimal rendering of integers and PHP's canonical integer-string keys.

  function DigitChar(d: nat): (c: char)
    requires d < 10
    ensures '0' <= c <= '9'
  {
    "0123456789"[d]
  }

  predicate IsDigit(c: char) {
    '0' <= c <= '9'
  }

  function DigitValue(c: char): (d: nat)
    requires IsDigit(c)
    ensures d < 10 && DigitChar(d) == c
  {
    (c as int - '0' as int) as nat
  }

  /** The decimal text of a natural number, as PHP prints it. */
  function NatToString(n: nat): (s: string)
    ensures |s| >= 1
    ensures forall k :: 0 <= k < |s| ==> IsDigit(s[k])
    decreases n
  {
    if n < 10 then [DigitChar(n)] else NatToString(n / 10) + [DigitChar(n % 10)]
  }

  /** The decimal text of an integer, as PHP's string conversion prints it. */
  function IntToString(i: int): string {
    if i < 0 then "-" + NatToString(-i) else NatToString(i)
  }

  /** The value of a string of digits. */
  function DigitsValue(s: string): nat
    requires forall k :: 0 <= k < |s| ==> IsDigit(s[k])
  {
    if s == [] then 0 else DigitsValue(s[..|s| - 1]) * 10 + DigitValue(s[|s| - 1])
  }

  /** True when PHP would turn the array key `s` into a non-negative integer key:
      a non-empty string of digits without a leading zero (or "0" itself). */
  predicate IsCanonicalIndex(s: string) {
    && |s| >= 1
    && (forall k :: 0 <= k < |s| ==> IsDigit(s[k]))
    && (s[0] == '0' ==> |s| == 1)
  }

  /** The list position PHP addresses with the string key `s`, if any.
      (Negative integer keys never address a list, so they give None too.) */
  function ListIndex(s: string): Option<nat> {
    if IsCanonicalIndex(s) then Some(DigitsValue(s)) else None
  }

  lemma {:induction false} NatToStringLeading(n: nat)
    ensures NatToString(n)[0] == '0' ==> n == 0
    decreases n
  {
    if n >= 10 {
      NatToStringLeading(n / 10);
      assert NatToString(n)[0] == NatToString(n / 10)[0];
    }
  }

  lemma {:induction false} DigitsValueOfNatToString(n: nat)
    ensures DigitsValue(NatToString(n)) == n
    decreases n
  {
    var s := NatToString(n);
    if n >= 10 {
      DigitsValueOfNatToString(n / 10);
      assert s[..|s| - 1] == NatToString(n / 10);
      assert DigitValue(s[|s| - 1]) == n % 10;
    }
  }

  /** Every natural number's decimal text is a canonical key that addresses that position. */
  lemma {:induction false} ListIndexOfNatToString(n: nat)
    ensures ListIndex(NatToString(n)) == Some(n)
  {
    NatToStringLeading(n);
    DigitsValueOfNatToString(n);
  }

  lemma {:induction false} DigitsValuePositive(s: string)
    requires IsCanonicalIndex(s) && |s| >= 2
    ensures DigitsValue(s) >= 10
    decreases |s|
  {
    var p := s[..|s| - 1];
    assert p[0] == s[0];
    if |p| >= 2 {
      DigitsValuePositive(p);
    } else {
      assert p == [s[0]];
      assert DigitsValue(p) == DigitValue(s[0]);
    }
  }

  /** A canonical key is exactly the decimal text of the position it addresses. */
  lemma {:induction false} NatToStringOfListIndex(s: string)
    requires ListIndex(s).Some?
    ensures NatToString(ListIndex(s).value) == s
    decreases |s|
  {
    var n := DigitsValue(s);
    if |s| == 1 {
      assert s[..0] == [] && DigitsValue(s[..0]) == 0;
      assert n == DigitsValue(s[..0]) * 10 + DigitValue(s[0]);
      assert s == [s[0]];
    } else {
      var p := s[..|s| - 1];
      assert p[0] == s[0];
      assert IsCanonicalIndex(p);
      if |p| >= 2 {
        DigitsValuePositive(p);
      } else {
        assert p == [s[0]];
        assert DigitsValue(p) == DigitValue(s[0]);
      }
      NatToStringOfListIndex(p);
      assert n / 10 == DigitsValue(p) && n % 10 == DigitValue(s[|s| - 1]);
      assert s == p + [s[|s| - 1]];
    }
  }

  lemma ListIndexOfNatToStringAll()
    ensures forall n: nat :: ListIndex(NatToString(n)) == Some(n)
  {
    forall n: nat
      ensures ListIndex(NatToString(n)) == Some(n)
    {
      ListIndexOfNatToString(n);
    }
  }

  lemma NatToStringInjective()
    ensures forall i: nat, j: nat :: NatToString(i) == NatToString(j) ==> i == j
  {
    forall i: nat, j: nat | NatToString(i) == NatToString(j)
      ensures i == j
    {
      ListIndexOfNatToString(i);
      ListIndexOfNatToString(j);
    }
  }

  // ---------------------------------------------------------------------------
  // Array access.

  /** `$v[$key] ?? null`: the entry a string key addresses, or null when there is none
      (reading into a scalar also gives null here). */
  function Lookup(v: Val, key: string): (r: Val)
    ensures v.Obj? && key in v.fields ==> r == v.fields[key]
    ensures v.Obj? && key !in v.fields ==> r == Null
    ensures !IsArray(v) ==> r == Null
  {
    match v
    case Obj(fields) => if key in fields then fields[key] else Null
    case Arr(items) =>
      var k := ListIndex(key);
      if k.Some? && k.value < |items| then items[k.value] else Null
    case _ => Null
  }

  /** `isset($v[$key])`: the key addresses an entry that is not null. */
  predicate IsSet(v: Val, key: string) {
    !Lookup(v, key).Null?
  }

  /** `isset($m[$key])` on an array the model keeps as a Dafny map. */
  predicate IsSetIn(m: map<string, Val>, key: string) {
    key in m && !m[key].Null?
  }

  /** `in_array($x, $arr)` with the comparison taken strictly. */
  predicate InArray(x: Val, arr: Val) {
    (arr.Arr? && x in arr.items) || (arr.Obj? && x in arr.fields.Values)
  }

  /** `count($v)`: the number of entries of an array; PHP 7 counts a non-null scalar as 1. */
  function Count(v: Val): (n: nat)
    ensures IsArray(v) ==> (n == 0 <==> Empty(v))
  {
    match v
    case Arr(items) => |items|
    case Obj(fields) => |fields|
    case Null => 0
    case _ => 1
  }

  /** The elements `foreach` visits, for a decoded JSON array. */
  function Elements(v: Val): seq<Val> {
    if v.Arr? then v.items else []
  }

  // ---------------------------------------------------------------------------
  // String conversion.

  /** PHP's conversion of a value to string, as `.` and `implode` apply it. */
  function ToText(v: Val): string {
    match v
    case Null => ""
    case Bool(b) => if b then "1" else ""
    case Int(i) => IntToString(i)
    case Str(s) => s
    case _ => "Array"
  }

  /** The texts of a list of values. */
  function Texts(items: seq<Val>): (ts: seq<string>)
    ensures |ts| == |items|
    ensures forall k :: 0 <= k < |items| ==> ts[k] == ToText(items[k])
  {
    seq(|items|, k requires 0 <= k < |items| => ToText(items[k]))
  }

  /** Strings joined with a separator between neighbours. */
  function Join(sep: string, ts: seq<string>): (s: string)
    ensures |ts| == 1 ==> s == ts[0]
    ensures ts == [] ==> s == ""
  {
    if ts == [] then ""
    else if |ts| == 1 then ts[0]
    else Join(sep, ts[..|ts| - 1]) + sep + ts[|ts| - 1]
  }

  /** `implode($sep, $items)` on a list: the texts of the items, joined. */
  function Implode(sep: string, items: seq<Val>): string {
    Join(sep, Texts(items))
  }

  /** The position of the last occurrence of `c` in `s`. */
  function LastIndex(c: char, s: string): (i: nat)
    requires c in s
    ensures i < |s| && s[i] == c
    ensures c !in s[i + 1..]
    decreases |s|
  {
    if s[|s| - 1] == c then |s| - 1
    else
      var p := s[..|s| - 1];
      assert c in p by {
        var k :| 0 <= k < |s| && s[k] == c;
        assert p[k] == c;
      }
      var i := LastIndex(c, p);
      assert s[i + 1..] == p[i + 1..] + [s[|s| - 1]];
      i
  }

  /** `explode` on a one-character separator: the pieces of `s` between occurrences of `sep`. */
  function Split(sep: char, s: string): (parts: seq<string>)
    ensures |parts| >= 1
    decreases |s|
  {
    if sep !in s then [s]
    else
      var i := LastIndex(sep, s);
      Split(sep, s[..i]) + [s[i + 1..]]
  }

  lemma {:induction false} LastIndexOfJoin(c: char, a: string, b: string)
    requires c !in b
    ensures c in a + [c] + b && LastIndex(c, a + [c] + b) == |a|
  {
    var s := a + [c] + b;
    assert s[|a|] == c;
    assert s[|a| + 1..] == b;
  }

  /** Splitting a join at its last separator. */
  lemma {:induction false} SplitJoin(sep: char, a: string, b: string)
    requires sep !in b
    ensures Split(sep, a + [sep] + b) == Split(sep, a) + [b]
  {
    var s := a + [sep] + b;
    LastIndexOfJoin(sep, a, b);
    assert s[..|a|] == a;
    assert s[|a| + 1..] == b;
  }

  /** Joining a non-empty list of strings with a separator character that none of them
      contains can be undone: splitting at that character gives the list back. */
  lemma {:induction false} SplitOfJoin(sep: char, ts: seq<string>)
    requires ts != []
    requires forall k :: 0 <= k < |ts| ==> sep !in ts[k]
    ensures Split(sep, Join([sep], ts)) == ts
    decreases |ts|
  {
    if |ts| > 1 {
      var init := ts[..|ts| - 1];
      SplitOfJoin(sep, init);
      SplitJoin(sep, Join([sep], init), ts[|ts| - 1]);
      assert init + [ts[|ts| - 1]] == ts;
    }
  }

  /** `explode(',', implode(',', $items))` gives back the items' texts, in order, when none
      of them contains a comma. */
  lemma SplitImplode(sep: char, items: seq<Val>)
    requires items != []
    requires forall k :: 0 <= k < |items| ==> sep !in ToText(items[k])
    ensures Split(sep, Implode([sep], items)) == Texts(items)
  {
    SplitOfJoin(sep, Texts(items));
  }
}
