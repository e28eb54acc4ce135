/**
 * The JavaScript built-in behaviour the client's code relies on: template-string
 * rendering of integers, the unary `+` on strings, `indexOf`, `substring`,
 * `padStart`, `split(sep)[0]`, and JSON objects whose keys keep their insertion order.
 */
module Js {

  datatype Option<T> = None | Some(value: T)

  /** A value, or the message of what was thrown instead. */
  datatype Result<T> = Ok(value: T) | Err(error: string)

  /** A `fetch` response: its status and its body, already parsed from JSON. */
  datatype Response<T> = Response(status: int, body: T)

  /** `Response.ok`: a status in the range 200-299. */
  predicate IsOk(status: int) {
    200 <= status <= 299
  }

  /** `${e}` for a thrown error: its name, a colon, a space and its message. */
  function ErrorText(name: string, message: string): string {
    name + ": " + message
  }

  // ---------------------------------------------------------------------------
  // Integers rendered as text (`${n}`) and read back (`+s`)
  // ---------------------------------------------------------------------------

  predicate IsDigit(c: char) {
    '0' <= c <= '9'
  }

  predicate AllDigits(s: string) {
    forall i :: 0 <= i < |s| ==> IsDigit(s[i])
  }

  function DigitChar(d: nat): (c: char)
    requires d < 10
    ensures IsDigit(c) && c as int - '0' as int == d
  {
    ('0' as int + d) as char
  }

  function DigitValue(c: char): nat
    requires IsDigit(c)
  {
    c as int - '0' as int
  }

  /** The decimal text JavaScript produces for a non-negative integer: no sign, no leading zero. */
  function NatToString(n: nat): (s: string)
    ensures |s| >= 1 && AllDigits(s)
    ensures s[0] == '0' <==> n == 0
    ensures n < 10 <==> |s| == 1
  {
    if n < 10 then [DigitChar(n)] else NatToString(n / 10) + [DigitChar(n % 10)]
  }

  /** `${i}` for an integer: a leading `-` for negative values. */
  function IntToString(i: int): (s: string)
    ensures |s| >= 1
    ensures s[0] == '-' <==> i < 0
  {
    if i < 0 then "-" + NatToString(-i) else NatToString(i)
  }

  /** The value of a run of decimal digits. */
  function DigitsValue(s: string): nat
    requires AllDigits(s)
  {
    if s == [] then 0 else DigitsValue(s[..|s| - 1]) * 10 + DigitValue(s[|s| - 1])
  }

  /**
   * The result of JavaScript's unary `+` on a string, for the forms the client meets:
   * the empty string is 0 and an optionally signed run of decimal digits is its value.
   * Every other string yields OtherValue, which stands for whatever `Number(s)` gives
   * (NaN in most cases).
   */
  datatype NumberValue = Integer(value: int) | OtherValue

  function ToNumber(s: string): NumberValue {
    if s == [] then Integer(0)
    else if AllDigits(s) then Integer(DigitsValue(s))
    else if |s| >= 2 && s[0] == '-' && AllDigits(s[1..]) then Integer(-(DigitsValue(s[1..]) as int))
    else if |s| >= 2 && s[0] == '+' && AllDigits(s[1..]) then Integer(DigitsValue(s[1..]))
    else OtherValue
  }

  lemma {:induction false} DigitsValueOfNatToString(n: nat)
    ensures DigitsValue(NatToString(n)) == n
  {
    if n >= 10 {
      var s := NatToString(n);
      var front := NatToString(n / 10);
      assert s[..|s| - 1] == front;
      DigitsValueOfNatToString(n / 10);
    }
  }

  /** Rendering an integer and reading it back with `+` gives the integer again. */
  lemma ToNumberOfIntToString(i: int)
    ensures ToNumber(IntToString(i)) == Integer(i)
  {
    if i < 0 {
      var s := IntToString(i);
      assert s[1..] == NatToString(-i);
      DigitsValueOfNatToString(-i);
    } else {
      DigitsValueOfNatToString(i);
    }
  }

  // ---------------------------------------------------------------------------
  // Math.ceil(Math.random() * n): the host number in the load-balanced URLs
  // ---------------------------------------------------------------------------

  /** `Math.ceil(x)`. */
  function Ceil(x: real): int {
    -((-x).Floor)
  }

  /**
   * `Math.ceil(r * n)` for a draw r of `Math.random()`, which lies in [0, 1): the
   * smallest integer not below r * n, so between 1 and n except when r is exactly 0.
   */
  function RandomIndex(r: real, n: nat): (k: int)
    requires 0.0 <= r < 1.0
    ensures (k - 1) as real < r * n as real <= k as real
    ensures 0 <= k <= n
    ensures n > 0 ==> (k == 0 <==> r == 0.0)
  {
    ScaledDraw(r, n);
    CeilRange(r * n as real, n);
    Ceil(r * n as real)
  }

  /** `Math.ceil(x)` is the least integer not below x. */
  lemma CeilBounds(x: real)
    ensures (Ceil(x) - 1) as real < x <= Ceil(x) as real
  {
  }

  /** For x in [0, m], `Math.ceil(x)` lies in 0..m and is 0 only for x = 0. */
  lemma CeilRange(x: real, m: nat)
    requires 0.0 <= x <= m as real
    ensures (Ceil(x) - 1) as real < x <= Ceil(x) as real
    ensures 0 <= Ceil(x) <= m
    ensures Ceil(x) == 0 <==> x == 0.0
  {
    CeilBounds(x);
  }

  lemma NonNegProduct(a: real, b: real)
    requires a >= 0.0 && b >= 0.0
    ensures a * b >= 0.0
  {
  }

  lemma PosProduct(a: real, b: real)
    requires a > 0.0 && b > 0.0
    ensures a * b > 0.0
  {
  }

  /** A draw in [0, 1) scaled by n lies in [0, n], and is 0 only for the draw 0. */
  lemma ScaledDraw(r: real, n: nat)
    requires 0.0 <= r < 1.0
    ensures 0.0 <= r * n as real <= n as real
    ensures n > 0 ==> (r * n as real == 0.0 <==> r == 0.0)
  {
    var m := n as real;
    NonNegProduct(r, m);
    NonNegProduct(1.0 - r, m);
    assert m - r * m == (1.0 - r) * m;
    if r != 0.0 && n > 0 {
      PosProduct(r, m);
    }
  }

  // ---------------------------------------------------------------------------
  // String.prototype methods
  // ---------------------------------------------------------------------------

  /** `s.indexOf(c)` for a one-character search string: the first position of c, or -1. */
  function IndexOf(s: string, c: char): (r: int)
    ensures -1 <= r < |s|
    ensures r < 0 <==> c !in s
    ensures 0 <= r ==> s[r] == c && c !in s[..r]
  {
    if s == [] then -1
    else if s[0] == c then 0
    else
      var k := IndexOf(s[1..], c);
      if k < 0 then -1
      else
        assert s[..k + 1] == [s[0]] + s[1..][..k];
        k + 1
  }

  /** An index argument of `substring`, clamped to [0, len]. */
  function Clamp(x: int, len: nat): (r: nat)
    ensures r <= len
    ensures 0 <= x <= len ==> r == x
    ensures x < 0 ==> r == 0
    ensures x > len ==> r == len
  {
    if x < 0 then 0 else if x > len then len else x
  }

  /**
   * `s.substring(start, end)`: both arguments are clamped to [0, |s|] and, when the
   * first ends up greater than the second, they are swapped.
   */
  function Substring(s: string, start: int, end: int): (r: string)
    ensures 0 <= start <= end <= |s| ==> r == s[start..end]
    ensures 0 <= end <= start <= |s| ==> r == s[end..start]
    ensures |r| == if Clamp(start, |s|) <= Clamp(end, |s|) then Clamp(end, |s|) - Clamp(start, |s|)
                   else Clamp(start, |s|) - Clamp(end, |s|)
    ensures IsSubstringOf(r, s)
  {
    var a, b := Clamp(start, |s|), Clamp(end, |s|);
    if a <= b then s[a..b] else s[b..a]
  }

  /** r occurs in s as a contiguous run of characters. */
  ghost predicate IsSubstringOf(r: string, s: string) {
    exists a, b :: 0 <= a <= b <= |s| && s[a..b] == r
  }

  function Repeat(c: char, n: nat): (r: string)
    ensures |r| == n && forall i :: 0 <= i < n ==> r[i] == c
  {
    if n == 0 then [] else [c] + Repeat(c, n - 1)
  }

  /**
   * `s.padStart(n, c)` with a one-character pad: s is never truncated; when shorter
   * than n it is preceded by as many copies of c as make the length n.
   */
  function PadStart(s: string, n: nat, c: char): (r: string)
    ensures |r| == if |s| >= n then |s| else n
    ensures r[|r| - |s|..] == s
    ensures forall i :: 0 <= i < |r| - |s| ==> r[i] == c
    ensures |s| >= n ==> r == s
  {
    if |s| >= n then s else Repeat(c, n - |s|) + s
  }

  /**
   * `s.split(sep)[0]` for a one-character separator: the text before the first sep,
   * or all of s when it holds no sep.
   */
  function SplitFirst(s: string, sep: char): (r: string)
    ensures r <= s
    ensures sep !in r
    ensures |r| < |s| ==> s[|r|] == sep
  {
    var k := IndexOf(s, sep);
    if k < 0 then s else s[..k]
  }

  /** `parts.join(sep)`. */
  function Join(parts: seq<string>, sep: string): string {
    if parts == [] then ""
    else if |parts| == 1 then parts[0]
    else parts[0] + sep + Join(parts[1..], sep)
  }

  // ---------------------------------------------------------------------------
  // JSON objects: key/value pairs in insertion order, each key once
  // ---------------------------------------------------------------------------

  type Object<V> = seq<(string, V)>

  predicate UniqueKeys<V>(o: Object<V>) {
    forall i, j :: 0 <= i < j < |o| ==> o[i].0 != o[j].0
  }

  /** `Object.keys(o)`. */
  function Keys<V>(o: Object<V>): (ks: seq<string>)
    ensures |ks| == |o| && forall i :: 0 <= i < |o| ==> ks[i] == o[i].0
  {
    if o == [] then [] else [o[0].0] + Keys(o[1..])
  }

  /** In an object every key is listed exactly once by `Object.keys`. */
  lemma {:induction false} KeysOnce<V>(o: Object<V>, k: string)
    requires UniqueKeys(o)
    ensures multiset(Keys(o))[k] == if k in Keys(o) then 1 else 0
  {
    if o != [] {
      var rest := o[1..];
      assert UniqueKeys(rest) by {
        forall i, j | 0 <= i < j < |rest| ensures rest[i].0 != rest[j].0 {
          assert rest[i] == o[i + 1] && rest[j] == o[j + 1];
        }
      }
      KeysOnce(rest, k);
      assert Keys(o) == [o[0].0] + Keys(rest);
      forall i | 0 <= i < |rest| ensures Keys(rest)[i] != o[0].0 {
        assert rest[i] == o[i + 1];
      }
    }
  }

  // ---------------------------------------------------------------------------
  // Map: entries in insertion order
  // ---------------------------------------------------------------------------

  /** A `Map` with string keys: its keys in insertion order, and the entry of each. */
  datatype OrderedMap<V> = OrderedMap(keys: seq<string>, entries: map<string, V>)

  /** Each key listed once, and exactly the keys that have an entry. */
  ghost predicate ValidMap<V>(m: OrderedMap<V>) {
    (forall i, j :: 0 <= i < j < |m.keys| ==> m.keys[i] != m.keys[j])
    && (forall k :: k in m.entries <==> k in m.keys)
  }

  /** `new Map()`. */
  function EmptyMap<V>(): (m: OrderedMap<V>)
    ensures ValidMap(m) && m.keys == [] && m.entries == map[]
  {
    OrderedMap([], map[])
  }

  /**
   * `m.set(k, v)`: the entry of k becomes v; a new key goes last, an existing key keeps
   * its place.
   */
  function MapSet<V>(m: OrderedMap<V>, k: string, v: V): (r: OrderedMap<V>)
    ensures k in m.entries ==> r.keys == m.keys
    ensures k !in m.entries ==> r.keys == m.keys + [k]
    ensures r.entries == m.entries[k := v]
  {
    if k in m.entries then OrderedMap(m.keys, m.entries[k := v]) else OrderedMap(m.keys + [k], m.entries[k := v])
  }

  /** `Array.from(m.values())`. */
  function MapValues<V>(m: OrderedMap<V>): (vs: seq<V>)
    requires ValidMap(m)
    ensures |vs| == |m.keys| && forall i :: 0 <= i < |m.keys| ==> vs[i] == m.entries[m.keys[i]]
  {
    seq(|m.keys|, i requires 0 <= i < |m.keys| && ValidMap(m) => m.entries[m.keys[i]])
  }

  /** `m.size`: the number of entries. */
  function MapSize<V>(m: OrderedMap<V>): nat {
    |m.entries|
  }

  /** A setting keeps a map valid; it grows by one entry exactly when the key is new. */
  lemma MapSetValid<V>(m: OrderedMap<V>, k: string, v: V)
    requires ValidMap(m)
    ensures ValidMap(MapSet(m, k, v))
    ensures MapSize(MapSet(m, k, v)) == if k in m.entries then MapSize(m) else MapSize(m) + 1
    ensures MapSet(m, k, v).entries[k] == v
    ensures forall j :: j != k && j in m.entries ==> j in MapSet(m, k, v).entries && MapSet(m, k, v).entries[j] == m.entries[j]
  {
    var r := MapSet(m, k, v);
    if k !in m.entries {
      assert r.entries.Keys == m.entries.Keys + {k};
    } else {
      assert r.entries.Keys == m.entries.Keys;
    }
  }

  /** A list without repeats has as many elements as the set of them. */
  lemma {:induction false} DistinctCount(ks: seq<string>)
    requires forall i, j :: 0 <= i < j < |ks| ==> ks[i] != ks[j]
    ensures |(set k | k in ks)| == |ks|
  {
    if ks != [] {
      var front, last := ks[..|ks| - 1], ks[|ks| - 1];
      assert forall i, j :: 0 <= i < j < |front| ==> front[i] != front[j] by {
        forall i, j | 0 <= i < j < |front| ensures front[i] != front[j] {
          assert front[i] == ks[i] && front[j] == ks[j];
        }
      }
      DistinctCount(front);
      assert ks == front + [last];
      assert (set k | k in ks) == (set k | k in front) + {last};
      assert last !in front by {
        forall i | 0 <= i < |front| ensures front[i] != last {
          assert front[i] == ks[i];
        }
      }
    }
  }

  /** In a valid map there are as many keys as entries. */
  lemma MapKeysCount<V>(m: OrderedMap<V>)
    requires ValidMap(m)
    ensures |m.keys| == MapSize(m)
  {
    assert m.entries.Keys == set k | k in m.keys;
    DistinctCount(m.keys);
  }

  /** The values listed are as many as the entries. */
  lemma MapValuesSize<V>(m: OrderedMap<V>)
    requires ValidMap(m)
    ensures |MapValues(m)| == MapSize(m)
  {
    MapKeysCount(m);
  }
}
