/**
 * JSON-like values as Python holds them after decoding a search-engine reply:
 * scalars, lists and dicts.  A dict is an ordered sequence of key/value pairs,
 * because Python dicts iterate in insertion order and the catch-all text
 * depends on that order.
 */
module Json {
  import opened Wrappers

  /** A Python float: its numeric value and the text `str()` renders for it.
      IEEE formatting is not modelled; the rendered text travels with the value. */
  datatype Float = Float(value: real, text: string)

  datatype Json =
    | JNull
    | JBool(b: bool)
    | JInt(i: int)
    | JFloat(f: Float)
    | JStr(s: string)
    | JList(items: seq<Json>)
    | JObject(fields: seq<(string, Json)>)

  /** A Python dict with string keys. */
  type Doc = seq<(string, Json)>

  /** The keys of a dict, in iteration order. */
  function Keys(d: Doc): seq<string> {
    seq(|d|, i requires 0 <= i < |d| => d[i].0)
  }

  /** Dict lookup with a default: the value stored under `k`, or None when `k`
      is absent. */
  function Get(d: Doc, k: string): Json {
    if |d| == 0 then JNull
    else if d[0].0 == k then d[0].1
    else Get(d[1..], k)
  }

  /** Key assignment: an existing key keeps its place and takes the new value,
      a new key is added at the end. */
  function Put(d: Doc, k: string, v: Json): (r: Doc)
    ensures Get(r, k) == v
    ensures forall k' :: k' != k ==> Get(r, k') == Get(d, k')
    ensures Keys(r) == if k in Keys(d) then Keys(d) else Keys(d) + [k]
  {
    if |d| == 0 then [(k, v)]
    else if d[0].0 == k then
      PutAtHead(d, k, v);
      [(k, v)] + d[1..]
    else
      var rest := Put(d[1..], k, v);
      PutBehindHead(d, k, v, rest);
      [d[0]] + rest
  }

  /** Assignment to the first key replaces its value and keeps the key order. */
  lemma PutAtHead(d: Doc, k: string, v: Json)
    requires |d| > 0 && d[0].0 == k
    ensures Get([(k, v)] + d[1..], k) == v
    ensures forall k' :: k' != k ==> Get([(k, v)] + d[1..], k') == Get(d, k')
    ensures k in Keys(d) && Keys([(k, v)] + d[1..]) == Keys(d)
  {
    var r := [(k, v)] + d[1..];
    assert r[1..] == d[1..];
    assert Keys(d)[0] == k;
    assert Keys(r) == Keys(d);
  }

  /** Assignment behind a different first key keeps that key in front. */
  lemma PutBehindHead(d: Doc, k: string, v: Json, rest: Doc)
    requires |d| > 0 && d[0].0 != k
    requires Get(rest, k) == v
    requires forall k' :: k' != k ==> Get(rest, k') == Get(d[1..], k')
    requires Keys(rest) == if k in Keys(d[1..]) then Keys(d[1..]) else Keys(d[1..]) + [k]
    ensures Get([d[0]] + rest, k) == v
    ensures forall k' :: k' != k ==> Get([d[0]] + rest, k') == Get(d, k')
    ensures Keys([d[0]] + rest) == if k in Keys(d) then Keys(d) else Keys(d) + [k]
  {
    var r := [d[0]] + rest;
    assert r[0] == d[0] && r[1..] == rest;
    assert Keys(d) == [d[0].0] + Keys(d[1..]);
    assert Keys(r) == [d[0].0] + Keys(rest);
    assert k in Keys(d) <==> k in Keys(d[1..]);
  }

  /** Python truthiness of a value. */
  predicate Truthy(j: Json) {
    match j
    case JNull => false
    case JBool(b) => b
    case JInt(i) => i != 0
    case JFloat(f) => f.value != 0.0
    case JStr(s) => s != ""
    case JList(xs) => xs != []
    case JObject(fs) => fs != []
  }

  /** Python truthiness of an `Optional[str]` or `Optional[List[...]]`:
      present and non-empty. */
  predicate Filled<T>(o: Option<seq<T>>) {
    o.Some? && |o.value| > 0
  }

  /** `isinstance(v, (int, float))`; a Python bool is an int, so it passes too. */
  predicate IsNumber(j: Json) {
    j.JInt? || j.JFloat? || j.JBool?
  }

  /** `float(v)` for a value that passes `IsNumber`. */
  function NumberValue(j: Json): real
    requires IsNumber(j)
  {
    match j
    case JInt(i) => i as real
    case JFloat(f) => f.value
    case JBool(b) => if b then 1.0 else 0.0
  }

  function DigitChar(d: int): char
    requires 0 <= d < 10
  {
    "0123456789"[d]
  }

  /** Decimal digits of a natural number. */
  function NatToString(n: nat): string
    decreases n
  {
    if n < 10 then [DigitChar(n)] else NatToString(n / 10) + [DigitChar(n % 10)]
  }

  /** `str(i)` for a Python int. */
  function IntToString(i: int): string {
    if i < 0 then "-" + NatToString(-i) else NatToString(i)
  }

  /** The items joined with `sep` between each neighbouring pair. */
  function Join(sep: string, xs: seq<string>): string {
    if |xs| == 0 then ""
    else if |xs| == 1 then xs[0]
    else xs[0] + sep + Join(sep, xs[1..])
  }

  function LowerChar(c: char): char {
    if 'A' <= c <= 'Z' then (c as int + 32) as char else c
  }

  /** `s.lower()` on the ASCII letters. */
  function Lower(s: string): (r: string)
    ensures |r| == |s|
    ensures forall i :: 0 <= i < |s| ==> r[i] == LowerChar(s[i])
  {
    seq(|s|, i requires 0 <= i < |s| => LowerChar(s[i]))
  }

  /** The default intra-field operator "OR" is sent as "or". */
  lemma LowerOr()
    ensures Lower("OR") == "or"
  {
    assert LowerChar('O') == 'o' && LowerChar('R') == 'r';
  }

  /** `repr(x)`; string quoting is always `'...'` and no character is escaped. */
  function Repr(j: Json): string {
    match j
    case JNull => "None"
    case JBool(b) => if b then "True" else "False"
    case JInt(i) => IntToString(i)
    case JFloat(f) => f.text
    case JStr(s) => "'" + s + "'"
    case JList(xs) =>
      "[" + Join(", ", seq(|xs|, k requires 0 <= k < |xs| => Repr(xs[k]))) + "]"
    case JObject(fs) =>
      "{" + Join(", ", seq(|fs|, k requires 0 <= k < |fs| => "'" + fs[k].0 + "': " + Repr(fs[k].1))) + "}"
  }

  /** `str(x)`: a string is itself, anything else is its repr. */
  function PyStr(j: Json): string {
    if j.JStr? then j.s else Repr(j)
  }

  // ----------------------------------------------------------------------
  // What these renderings and lookups mean
  // ----------------------------------------------------------------------

  /** `d.get(k)` finds the value of the first pair with key `k`, and None
      when no pair has that key. */
  lemma {:induction false} GetFirstMatch(d: Doc, k: string)
    ensures (forall i :: 0 <= i < |d| ==> d[i].0 != k) ==> Get(d, k) == JNull
    ensures forall i :: 0 <= i < |d| && d[i].0 == k && (forall j :: 0 <= j < i ==> d[j].0 != k) ==>
      Get(d, k) == d[i].1
  {
    if |d| > 0 {
      GetFirstMatch(d[1..], k);
      if d[0].0 != k {
        forall i | 0 <= i < |d| && d[i].0 == k && (forall j :: 0 <= j < i ==> d[j].0 != k)
          ensures Get(d, k) == d[i].1
        {
          assert d[1..][i - 1] == d[i];
          forall j | 0 <= j < i - 1 ensures d[1..][j].0 != k {
            assert d[1..][j] == d[j + 1];
          }
        }
        if forall i :: 0 <= i < |d| ==> d[i].0 != k {
          forall i | 0 <= i < |d[1..]| ensures d[1..][i].0 != k {
            assert d[1..][i] == d[i + 1];
          }
        }
      }
    }
  }

  /** The falsy values are exactly None, False, 0, 0.0, "", [] and {}. */
  lemma FalsyValues(j: Json)
    ensures !Truthy(j) <==>
      j == JNull || j == JBool(false) || j == JInt(0) || (j.JFloat? && j.f.value == 0.0)
      || j == JStr("") || j == JList([]) || j == JObject([])
  {
  }

  /** A string value is truthy exactly when the same text passes `Filled`. */
  lemma TruthyAgreesWithFilled(s: string, xs: seq<Json>)
    ensures Truthy(JStr(s)) <==> Filled(Some(s))
    ensures Truthy(JList(xs)) <==> Filled(Some(xs))
  {
  }

  lemma DigitCharValue(d: int)
    requires 0 <= d < 10
    ensures '0' <= DigitChar(d) <= '9'
    ensures DigitChar(d) as int - '0' as int == d
  {
    if d == 0 {} else if d == 1 {} else if d == 2 {} else if d == 3 {} else if d == 4 {}
    else if d == 5 {} else if d == 6 {} else if d == 7 {} else if d == 8 {} else {}
  }

  predicate AllDigits(s: string) {
    forall i :: 0 <= i < |s| ==> '0' <= s[i] <= '9'
  }

  /** The number a string of decimal digits spells. */
  function DigitsValue(s: string): nat
    requires AllDigits(s)
  {
    if |s| == 0 then 0
    else DigitsValue(s[..|s| - 1]) * 10 + (s[|s| - 1] as int - '0' as int)
  }

  /** `str(n)` is a non-empty run of digits, with no leading zero, that spells `n`. */
  lemma {:induction false} NatToStringDigits(n: nat)
    ensures var r := NatToString(n);
      && |r| > 0 && AllDigits(r)
      && (r[0] == '0' <==> n == 0)
      && DigitsValue(r) == n
    decreases n
  {
    var r := NatToString(n);
    if n < 10 {
      DigitCharValue(n);
      assert r == [DigitChar(n)];
      assert r[..0] == [];
    } else {
      NatToStringDigits(n / 10);
      DigitCharValue(n % 10);
      var hd := NatToString(n / 10);
      assert r == hd + [DigitChar(n % 10)];
      assert r[..|r| - 1] == hd;
      assert r[0] == hd[0];
    }
  }

  /** `str(i)` for an int: a minus sign iff it is negative, then the digits
      of its magnitude. */
  lemma IntToStringShape(i: int)
    ensures |IntToString(i)| > 0 && (IntToString(i)[0] == '-' <==> i < 0)
    ensures i >= 0 ==> AllDigits(IntToString(i)) && DigitsValue(IntToString(i)) == i
    ensures i < 0 ==> AllDigits(IntToString(i)[1..]) && DigitsValue(IntToString(i)[1..]) == -i
  {
    var r := IntToString(i);
    if i < 0 {
      var m := NatToString(-i);
      NatToStringDigits(-i);
      assert r == "-" + m;
      assert r[1..] == m;
    } else {
      NatToStringDigits(i);
      assert '0' <= r[0] <= '9';
    }
  }

  /** Joining one more item appends the separator and that item. */
  lemma {:induction false} JoinAppend(sep: string, xs: seq<string>, x: string)
    requires |xs| > 0
    ensures Join(sep, xs + [x]) == Join(sep, xs) + sep + x
    decreases |xs|
  {
    if |xs| == 1 {
      assert (xs + [x])[1..] == [x];
    } else {
      JoinAppend(sep, xs[1..], x);
      assert (xs + [x])[1..] == xs[1..] + [x];
    }
  }

  /** Lower-casing twice changes nothing more. */
  lemma LowerIdempotent(s: string)
    ensures Lower(Lower(s)) == Lower(s)
  {
  }

  /** `str()` of a string is the string itself; of a list of strings, the
      quoted strings joined by ", " in brackets. */
  lemma PyStrOfStrings(s: string, xs: seq<string>)
    ensures PyStr(JStr(s)) == s
    ensures PyStr(JList(seq(|xs|, i requires 0 <= i < |xs| => JStr(xs[i]))))
         == "[" + Join(", ", seq(|xs|, i requires 0 <= i < |xs| => "'" + xs[i] + "'")) + "]"
  {
    var ys := seq(|xs|, i requires 0 <= i < |xs| => JStr(xs[i]));
    assert seq(|ys|, k requires 0 <= k < |ys| => Repr(ys[k]))
        == seq(|xs|, i requires 0 <= i < |xs| => "'" + xs[i] + "'");
  }
}
