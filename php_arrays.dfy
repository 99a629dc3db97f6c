/**
 * The fragment of PHP's value model that the list-page plugins rely on:
 * scalars, ordered arrays keyed by integers or strings, truthiness, the
 * normalisation of numeric string keys, and the library functions the
 * plugins call (`array_values`, `array_filter`, `array_intersect_key`, the
 * `+` union of arrays, `array_column`, `implode`, `ltrim`).
 *
 * A PHP array is an ordered list of (key, value) entries. Lookup returns the
 * first entry with the key; arrays built by PHP never repeat a key
 * (`DistinctKeys`), and the lemmas that need it say so.
 */
module PhpArrays {
  import opened Wrappers

  // ---------------------------------------------------------------------
  // Keys, values, truthiness
  // ---------------------------------------------------------------------

  /** A PHP array key. */
  datatype Key = IntKey(i: int) | StrKey(s: string)

  /** A PHP value, as far as the modelled code inspects it (no floats, no objects). */
  datatype Value =
    | Null
    | Bool(b: bool)
    | Int(i: int)
    | Str(s: string)
    | Arr(entries: seq<(Key, Value)>)

  /** A string converts to TRUE unless it is empty or exactly "0". */
  predicate TruthyString(s: string) {
    s != "" && s != "0"
  }

  /** PHP's conversion of a value to boolean (what `if ($v)`, `!$v` and `array_filter` test). */
  predicate Truthy(v: Value) {
    match v
    case Null => false
    case Bool(b) => b
    case Int(i) => i != 0
    case Str(s) => TruthyString(s)
    case Arr(e) => |e| > 0
  }

  /** A key as the value `array_keys` returns for it. */
  function KeyValue(k: Key): Value {
    match k
    case IntKey(i) => Int(i)
    case StrKey(s) => Str(s)
  }

  /** The PHP list holding `vs`: keys 0, 1, 2, ... in order. */
  function List(vs: seq<Value>): Value {
    Arr(seq(|vs|, i requires 0 <= i < |vs| => (IntKey(i), vs[i])))
  }

  // ---------------------------------------------------------------------
  // Ordered arrays
  // ---------------------------------------------------------------------

  function Keys<K(!new), V(!new)>(a: seq<(K, V)>): seq<K> {
    seq(|a|, i requires 0 <= i < |a| => a[i].0)
  }

  /** `array_values`: the values in order, re-indexed from 0. */
  function Values<K(!new), V(!new)>(a: seq<(K, V)>): seq<V> {
    seq(|a|, i requires 0 <= i < |a| => a[i].1)
  }

  /** `array_values` of a PHP list gives the listed values back. */
  lemma ValuesOfList(vs: seq<Value>)
    ensures Values(List(vs).entries) == vs
  {
    assert |Values(List(vs).entries)| == |vs|;
    forall i | 0 <= i < |vs|
      ensures Values(List(vs).entries)[i] == vs[i]
    {
      assert List(vs).entries[i] == (IntKey(i), vs[i]);
    }
  }

  function KeySet<K(!new), V(!new)>(a: seq<(K, V)>): set<K> {
    set i | 0 <= i < |a| :: a[i].0
  }

  /** No key occurs twice: true of every array PHP builds. */
  predicate DistinctKeys<K(==,!new), V(!new)>(a: seq<(K, V)>) {
    forall i, j :: 0 <= i < j < |a| ==> a[i].0 != a[j].0
  }

  lemma KeySetCons<K(!new), V(!new)>(a: seq<(K, V)>)
    requires |a| > 0
    ensures KeySet(a) == {a[0].0} + KeySet(a[1..])
  {
    forall k | k in KeySet(a) ensures k in {a[0].0} + KeySet(a[1..]) {
      var i :| 0 <= i < |a| && a[i].0 == k;
      if i > 0 { assert a[1..][i - 1].0 == k; }
    }
    forall k | k in KeySet(a[1..]) ensures k in KeySet(a) {
      var i :| 0 <= i < |a[1..]| && a[1..][i].0 == k;
      assert a[i + 1].0 == k;
    }
  }

  /** `$a[$k]` read with `??`: the value of the first entry with key `k`, if any. */
  function Get<K(==,!new), V(!new)>(a: seq<(K, V)>, k: K): (r: Option<V>)
    ensures r.Some? <==> k in KeySet(a)
    ensures r.Some? ==> (k, r.value) in a
  {
    if |a| == 0 then None
    else
      KeySetCons(a);
      if a[0].0 == k then Some(a[0].1) else Get(a[1..], k)
  }

  lemma {:induction false} GetAt<K(!new), V(!new)>(a: seq<(K, V)>, i: nat)
    requires DistinctKeys(a) && i < |a|
    ensures Get(a, a[i].0) == Some(a[i].1)
  {
    if i > 0 {
      assert a[0].0 != a[i].0;
      assert a[1..][i - 1] == a[i];
      GetAt(a[1..], i - 1);
    }
  }

  lemma {:induction false} GetConcat<K(!new), V(!new)>(a: seq<(K, V)>, b: seq<(K, V)>, k: K)
    ensures Get(a + b, k) == if k in KeySet(a) then Get(a, k) else Get(b, k)
  {
    if |a| > 0 {
      KeySetCons(a);
      assert (a + b)[1..] == a[1..] + b;
      GetConcat(a[1..], b, k);
    } else {
      assert a + b == b;
    }
  }

  /** `$a[$k] = $v`: overwrites the entry in place when the key exists, appends otherwise. */
  function Put<K(==,!new), V(!new)>(a: seq<(K, V)>, k: K, v: V): (r: seq<(K, V)>)
    ensures Get(r, k) == Some(v)
    ensures forall k' :: k' != k ==> Get(r, k') == Get(a, k')
    ensures KeySet(r) == KeySet(a) + {k}
  {
    if |a| == 0 then [(k, v)]
    else
      KeySetCons(a);
      if a[0].0 == k then
        var r := [(k, v)] + a[1..];
        assert r[1..] == a[1..];
        KeySetCons(r);
        r
      else
        var r := [a[0]] + Put(a[1..], k, v);
        assert r[1..] == Put(a[1..], k, v);
        KeySetCons(r);
        r
  }

  /** Assigning to a key the array lacks appends the entry. */
  lemma {:induction false} PutFresh<K(!new), V(!new)>(a: seq<(K, V)>, k: K, v: V)
    requires k !in KeySet(a)
    ensures Put(a, k, v) == a + [(k, v)]
  {
    if |a| > 0 {
      KeySetCons(a);
      PutFresh(a[1..], k, v);
    }
  }

  /** The entries of `a` whose key lies in `ks`, in their original order. */
  function RestrictKeys<K(==,!new), V(!new)>(a: seq<(K, V)>, ks: set<K>): (r: seq<(K, V)>)
    ensures forall e :: e in r <==> e in a && e.0 in ks
    ensures |r| <= |a|
  {
    if |a| == 0 then []
    else (if a[0].0 in ks then [a[0]] else []) + RestrictKeys(a[1..], ks)
  }

  lemma {:induction false} RestrictKeysConcat<K(!new), V(!new)>(a: seq<(K, V)>, b: seq<(K, V)>, ks: set<K>)
    ensures RestrictKeys(a + b, ks) == RestrictKeys(a, ks) + RestrictKeys(b, ks)
  {
    if |a| == 0 {
      assert a + b == b;
    } else {
      assert (a + b)[1..] == a[1..] + b;
      RestrictKeysConcat(a[1..], b, ks);
    }
  }

  lemma {:induction false} RestrictKeysTwice<K(!new), V(!new)>(a: seq<(K, V)>, s: set<K>, t: set<K>)
    ensures RestrictKeys(RestrictKeys(a, s), t) == RestrictKeys(a, s * t)
  {
    if |a| > 0 {
      RestrictKeysTwice(a[1..], s, t);
      var head: seq<(K, V)> := if a[0].0 in s then [a[0]] else [];
      RestrictKeysConcat(head, RestrictKeys(a[1..], s), t);
    }
  }

  lemma {:induction false} RestrictKeysNone<K(!new), V(!new)>(a: seq<(K, V)>, ks: set<K>)
    requires forall i :: 0 <= i < |a| ==> a[i].0 !in ks
    ensures RestrictKeys(a, ks) == []
  {
    if |a| > 0 {
      RestrictKeysNone(a[1..], ks);
    }
  }

  lemma {:induction false} RestrictKeysGet<K(!new), V(!new)>(a: seq<(K, V)>, ks: set<K>, k: K)
    ensures Get(RestrictKeys(a, ks), k) == if k in ks then Get(a, k) else None
  {
    if |a| > 0 {
      RestrictKeysGet(a[1..], ks, k);
      if a[0].0 in ks {
        assert (RestrictKeys(a, ks))[1..] == RestrictKeys(a[1..], ks);
      } else {
        assert RestrictKeys(a, ks) == RestrictKeys(a[1..], ks);
      }
    }
  }

  /**
   * `array_intersect_key($a, array_combine($l, $l))`: the entries of `a` whose
   * key occurs in the list `l`, in `a`'s order, with `a`'s values.
   */
  function IntersectKeys<K(==,!new), V(!new)>(a: seq<(K, V)>, l: seq<K>): (r: seq<(K, V)>)
    ensures forall e :: e in r <==> e in a && e.0 in l
    ensures forall k :: Get(r, k) == if k in l then Get(a, k) else None
  {
    var ks := set x | x in l;
    forall k ensures Get(RestrictKeys(a, ks), k) == if k in l then Get(a, k) else None {
      RestrictKeysGet(a, ks, k);
    }
    RestrictKeys(a, ks)
  }

  /** PHP's `$a + $b`: all of `a`, then the entries of `b` whose key `a` lacks. */
  function Union<K(==,!new), V(!new)>(a: seq<(K, V)>, b: seq<(K, V)>): (r: seq<(K, V)>)
    ensures KeySet(r) == KeySet(a) + KeySet(b)
    ensures forall k :: Get(r, k) == if k in KeySet(a) then Get(a, k) else Get(b, k)
    ensures |r| >= |a| && r[..|a|] == a
  {
    var rest := RestrictKeys(b, KeySet(b) - KeySet(a));
    forall k ensures Get(a + rest, k) == if k in KeySet(a) then Get(a, k) else Get(b, k) {
      GetConcat(a, rest, k);
      RestrictKeysGet(b, KeySet(b) - KeySet(a), k);
    }
    forall k | k in KeySet(a + rest) ensures k in KeySet(a) + KeySet(b) {
      assert Get(a + rest, k).Some?;
    }
    forall k | k in KeySet(a) + KeySet(b) ensures k in KeySet(a + rest) {
      assert Get(a + rest, k).Some?;
    }
    a + rest
  }

  /** Adding the same left-hand array twice adds nothing the first `+` did not. */
  lemma UnionIdempotent<K(!new), V(!new)>(a: seq<(K, V)>, b: seq<(K, V)>)
    ensures Union(a, Union(a, b)) == Union(a, b)
  {
    var others := KeySet(b) - KeySet(a);
    var rest := RestrictKeys(b, others);
    var u := Union(a, b);
    assert u == a + rest;
    assert KeySet(u) - KeySet(a) == others;
    forall i | 0 <= i < |a| ensures a[i].0 !in others {
      assert a[i].0 in KeySet(a);
    }
    RestrictKeysNone(a, others);
    RestrictKeysConcat(a, rest, others);
    RestrictKeysTwice(b, others, others);
    assert others * others == others;
    calc {
      RestrictKeys(u, others);
      RestrictKeys(a, others) + RestrictKeys(rest, others);
      RestrictKeys(rest, others);
      RestrictKeys(b, others * others);
      { assert others * others == others; }
      rest;
    }
  }

  /** `array_filter($a)` without a callback: drops the falsy entries and keeps the keys. */
  function FilterTruthy<K(==,!new)>(a: seq<(K, Value)>): (r: seq<(K, Value)>)
    ensures forall e :: e in r <==> e in a && Truthy(e.1)
    ensures |r| <= |a|
  {
    if |a| == 0 then []
    else (if Truthy(a[0].1) then [a[0]] else []) + FilterTruthy(a[1..])
  }

  lemma {:induction false} FilterTruthyGet<K(!new)>(a: seq<(K, Value)>, k: K)
    requires DistinctKeys(a)
    ensures Get(FilterTruthy(a), k) == if Get(a, k).Some? && Truthy(Get(a, k).value) then Get(a, k) else None
  {
    if |a| > 0 {
      assert DistinctKeys(a[1..]) by {
        forall i, j | 0 <= i < j < |a[1..]| ensures a[1..][i].0 != a[1..][j].0 {
          assert a[1..][i] == a[i + 1] && a[1..][j] == a[j + 1];
        }
      }
      FilterTruthyGet(a[1..], k);
      if a[0].0 == k {
        forall i | 0 <= i < |a[1..]| ensures a[1..][i].0 != k {
          assert a[1..][i] == a[i + 1];
        }
        assert k !in KeySet(a[1..]);
      }
      if Truthy(a[0].1) {
        assert FilterTruthy(a)[1..] == FilterTruthy(a[1..]);
      } else {
        assert FilterTruthy(a) == FilterTruthy(a[1..]);
      }
    }
  }

  /** A prefix of an array without repeated keys has none either, and lacks the keys that follow it. */
  lemma DistinctKeysPrefix<K(!new), V(!new)>(a: seq<(K, V)>, n: nat)
    requires DistinctKeys(a) && n <= |a|
    ensures DistinctKeys(a[..n])
    ensures forall i :: n <= i < |a| ==> a[i].0 !in KeySet(a[..n])
  {
    forall i | n <= i < |a| ensures a[i].0 !in KeySet(a[..n]) {
      forall j | 0 <= j < n ensures a[..n][j].0 != a[i].0 {
        assert a[..n][j] == a[j];
      }
    }
  }

  /**
   * A `foreach ($a as $k => $v)` that assigns `$out[$k]` whenever `select`
   * yields a value for the entry: the selected keys with those values, in
   * the order of `a`.
   */
  function MapFilter<K(==,!new), V(!new), W(!new)>(a: seq<(K, V)>, select: (K, V) -> Option<W>): seq<(K, W)> {
    if |a| == 0 then []
    else
      var n := |a| - 1;
      var chosen := select(a[n].0, a[n].1);
      MapFilter(a[..n], select) + (if chosen.Some? then [(a[n].0, chosen.value)] else [])
  }

  lemma {:induction false} MapFilterKeys<K(!new), V(!new), W(!new)>(a: seq<(K, V)>, select: (K, V) -> Option<W>)
    ensures KeySet(MapFilter(a, select)) <= KeySet(a)
  {
    if |a| > 0 {
      var init := a[..|a| - 1];
      MapFilterKeys(init, select);
      var p := MapFilter(a, select);
      forall k | k in KeySet(p) ensures k in KeySet(a) {
        var i :| 0 <= i < |p| && p[i].0 == k;
        if i < |MapFilter(init, select)| {
          assert p[i] == MapFilter(init, select)[i];
          assert k in KeySet(MapFilter(init, select));
          var j :| 0 <= j < |init| && init[j].0 == k;
          assert a[j].0 == k;
        }
      }
    }
  }

  /**
   * Every key of `a` for which `select` yields a value maps to that value,
   * every other key is absent, and no key occurs twice.
   */
  lemma {:induction false} MapFilterGet<K(!new), V(!new), W(!new)>(a: seq<(K, V)>, select: (K, V) -> Option<W>, k: K)
    requires DistinctKeys(a)
    ensures Get(MapFilter(a, select), k) == if Get(a, k).Some? then select(k, Get(a, k).value) else None
    ensures DistinctKeys(MapFilter(a, select))
  {
    if |a| > 0 {
      var n := |a| - 1;
      var init := a[..n];
      var last: seq<(K, V)> := [a[n]];
      DistinctKeysPrefix(a, n);
      MapFilterGet(init, select, k);
      MapFilterKeys(init, select);
      assert a == init + last;
      GetConcat(init, last, k);
      var p := MapFilter(init, select);
      var chosen := select(a[n].0, a[n].1);
      if chosen.Some? {
        var tail: seq<(K, W)> := [(a[n].0, chosen.value)];
        var pt := p + tail;
        GetConcat(p, tail, k);
        assert DistinctKeys(pt) by {
          forall i, j | 0 <= i < j < |pt| ensures pt[i].0 != pt[j].0 {
            if j == |p| {
              assert pt[i] == p[i];
              assert p[i].0 in KeySet(p);
            } else {
              assert pt[i] == p[i] && pt[j] == p[j];
            }
          }
        }
      } else {
        assert MapFilter(a, select) == p;
      }
    }
  }

  /** One more step of the `foreach`: the next selected entry is assigned with `$out[$k] = ...`. */
  lemma MapFilterStep<K(!new), V(!new), W(!new)>(a: seq<(K, V)>, select: (K, V) -> Option<W>, i: nat)
    requires DistinctKeys(a) && i < |a|
    ensures MapFilter(a[..i + 1], select) ==
              var chosen := select(a[i].0, a[i].1);
              if chosen.Some? then Put(MapFilter(a[..i], select), a[i].0, chosen.value) else MapFilter(a[..i], select)
  {
    assert a[..i + 1][..i] == a[..i];
    var chosen := select(a[i].0, a[i].1);
    if chosen.Some? {
      DistinctKeysPrefix(a, i);
      MapFilterKeys(a[..i], select);
      PutFresh(MapFilter(a[..i], select), a[i].0, chosen.value);
    }
  }

  /** A row's column as `array_column` reads it: present only in an array row that has the key. */
  function Column(row: Value, col: Key): Option<Value> {
    if row.Arr? then Get(row.entries, col) else None
  }

  /**
   * `array_column($rows, $col)`: the column of every row that has it, in row
   * order, re-indexed; rows lacking the column are skipped.
   */
  function ArrayColumn(rows: seq<Value>, col: Key): (r: seq<Value>)
    ensures |r| <= |rows|
  {
    if |rows| == 0 then []
    else
      match Column(rows[0], col)
      case Some(v) => [v] + ArrayColumn(rows[1..], col)
      case None => ArrayColumn(rows[1..], col)
  }

  /** Every value `array_column` returns is the column of some row. */
  lemma {:induction false} ArrayColumnMembers(rows: seq<Value>, col: Key, v: Value)
    requires v in ArrayColumn(rows, col)
    ensures exists i :: 0 <= i < |rows| && Column(rows[i], col) == Some(v)
  {
    if Column(rows[0], col) != Some(v) {
      ArrayColumnMembers(rows[1..], col, v);
      var j :| 0 <= j < |rows[1..]| && Column(rows[1..][j], col) == Some(v);
      assert Column(rows[j + 1], col) == Some(v);
    }
  }

  /** When every row has the column, `array_column` returns each row's column, in row order. */
  lemma {:induction false} ArrayColumnComplete(rows: seq<Value>, col: Key)
    ensures (forall i :: 0 <= i < |rows| ==> Column(rows[i], col).Some?) ==>
              && |ArrayColumn(rows, col)| == |rows|
              && forall i :: 0 <= i < |rows| ==> Some(ArrayColumn(rows, col)[i]) == Column(rows[i], col)
  {
    if |rows| > 0 {
      assert forall i :: 0 <= i < |rows[1..]| ==> rows[1..][i] == rows[i + 1];
      ArrayColumnComplete(rows[1..], col);
    }
  }

  lemma {:induction false} ArrayColumnConcat(a: seq<Value>, b: seq<Value>, col: Key)
    ensures ArrayColumn(a + b, col) == ArrayColumn(a, col) + ArrayColumn(b, col)
  {
    if |a| == 0 {
      assert a + b == b;
    } else {
      assert (a + b)[1..] == a[1..] + b;
      ArrayColumnConcat(a[1..], b, col);
    }
  }

  // ---------------------------------------------------------------------
  // Strings
  // ---------------------------------------------------------------------

  /** `implode($sep, $xs)`. */
  function Join(sep: string, xs: seq<string>): string {
    if |xs| == 0 then ""
    else if |xs| == 1 then xs[0]
    else xs[0] + sep + Join(sep, xs[1..])
  }

  /** Joining two non-empty runs of strings is joining each and putting the separator between them. */
  lemma {:induction false} JoinConcat(sep: string, xs: seq<string>, ys: seq<string>)
    requires |xs| > 0 && |ys| > 0
    ensures Join(sep, xs + ys) == Join(sep, xs) + sep + Join(sep, ys)
  {
    if |xs| == 1 {
      assert (xs + ys)[1..] == ys;
    } else {
      assert (xs + ys)[1..] == xs[1..] + ys;
      JoinConcat(sep, xs[1..], ys);
    }
  }

  /** `ltrim($s, $mask)`: removes the longest leading run of characters of `mask`. */
  function LTrim(s: string, mask: set<char>): (r: string)
    ensures |r| <= |s| && r == s[|s| - |r|..]
    ensures forall i :: 0 <= i < |s| - |r| ==> s[i] in mask
    ensures |r| > 0 ==> r[0] !in mask
  {
    if |s| > 0 && s[0] in mask then LTrim(s[1..], mask) else s
  }

  /** A leading run of mask characters does not change what `ltrim` leaves of what follows it. */
  lemma {:induction false} LTrimSkip(p: string, rest: string, mask: set<char>)
    requires forall i :: 0 <= i < |p| ==> p[i] in mask
    ensures LTrim(p + rest, mask) == LTrim(rest, mask)
  {
    if |p| > 0 {
      assert (p + rest)[1..] == p[1..] + rest;
      LTrimSkip(p[1..], rest, mask);
    } else {
      assert p + rest == rest;
    }
  }

  /** `ltrim` removes exactly a leading run of mask characters that is followed by a non-mask character. */
  lemma {:induction false} LTrimPrefix(p: string, rest: string, mask: set<char>)
    requires forall i :: 0 <= i < |p| ==> p[i] in mask
    requires |rest| > 0 ==> rest[0] !in mask
    ensures LTrim(p + rest, mask) == rest
  {
    if |p| > 0 {
      assert (p + rest)[1..] == p[1..] + rest;
      LTrimPrefix(p[1..], rest, mask);
    } else {
      assert p + rest == rest;
    }
  }

  // ---------------------------------------------------------------------
  // Numeric string keys
  // ---------------------------------------------------------------------

  const PHP_INT_MAX: int := 0x7fff_ffff_ffff_ffff
  const PHP_INT_MIN: int := -PHP_INT_MAX - 1

  predicate IsDigit(c: char) {
    '0' <= c <= '9'
  }

  predicate AllDigits(s: string) {
    forall i :: 0 <= i < |s| ==> IsDigit(s[i])
  }

  function DigitValue(c: char): nat
    requires IsDigit(c)
  {
    c as int - '0' as int
  }

  function DigitChar(d: nat): char
    requires d < 10
  {
    ('0' as int + d) as char
  }

  /** The number a string of decimal digits denotes. */
  function DigitsValue(s: string): nat
    requires AllDigits(s)
  {
    if |s| == 0 then 0 else DigitsValue(s[..|s| - 1]) * 10 + DigitValue(s[|s| - 1])
  }

  /** Decimal digits without a leading zero (except "0" itself). */
  predicate CanonicalDigits(s: string) {
    |s| > 0 && AllDigits(s) && (s[0] == '0' ==> |s| == 1)
  }

  /** The decimal notation PHP prints for a natural number. */
  function NatToString(n: nat): (s: string)
    ensures CanonicalDigits(s)
  {
    if n < 10 then [DigitChar(n)]
    else
      var s := NatToString(n / 10) + [DigitChar(n % 10)];
      assert s[0] == NatToString(n / 10)[0];
      s
  }

  /** The decimal notation PHP prints for an integer. */
  function IntToString(i: int): string {
    if i < 0 then "-" + NatToString(-i) else NatToString(i)
  }

  /** A string of the form `0`, `[1-9][0-9]*` or `-[1-9][0-9]*`. */
  predicate IsCanonicalDecimal(s: string) {
    CanonicalDigits(s) || (|s| > 1 && s[0] == '-' && s[1] != '0' && CanonicalDigits(s[1..]))
  }

  function DecimalValue(s: string): int
    requires IsCanonicalDecimal(s)
  {
    if CanonicalDigits(s) then DigitsValue(s) else -(DigitsValue(s[1..]) as int)
  }

  /**
   * The key PHP stores for a string used as an array key: a canonical decimal
   * integer within the 64-bit range becomes an integer key, any other string
   * stays a string key (so `"0"` and `0` are the same key, `"00"` and `"-0"` are not).
   */
  function NormalizeKey(s: string): Key {
    if IsCanonicalDecimal(s) && PHP_INT_MIN <= DecimalValue(s) <= PHP_INT_MAX
    then IntKey(DecimalValue(s))
    else StrKey(s)
  }

  lemma {:induction false} NatToStringValue(n: nat)
    ensures DigitsValue(NatToString(n)) == n
  {
    var s := NatToString(n);
    if n >= 10 {
      NatToStringValue(n / 10);
      assert s[..|s| - 1] == NatToString(n / 10);
    }
  }

  lemma {:induction false} LeadingDigitPositive(s: string)
    requires CanonicalDigits(s) && s[0] != '0'
    ensures DigitsValue(s) >= 1
  {
    if |s| > 1 {
      var p := s[..|s| - 1];
      assert p[0] == s[0];
      LeadingDigitPositive(p);
    }
  }

  lemma {:induction false} DigitsValueToString(s: string)
    requires CanonicalDigits(s)
    ensures NatToString(DigitsValue(s)) == s
  {
    if |s| > 1 {
      var p := s[..|s| - 1];
      assert p[0] == s[0];
      LeadingDigitPositive(p);
      DigitsValueToString(p);
      var d := DigitValue(s[|s| - 1]);
      assert DigitsValue(s) / 10 == DigitsValue(p) && DigitsValue(s) % 10 == d;
      assert s == p + [DigitChar(d)];
    }
  }

  /** Printing an in-range integer and using the text as a key gives the integer key back. */
  lemma NormalizeIntString(i: int)
    requires PHP_INT_MIN <= i <= PHP_INT_MAX
    ensures NormalizeKey(IntToString(i)) == IntKey(i)
  {
    if i < 0 {
      var s := "-" + NatToString(-i);
      NatToStringValue(-i);
      assert s[1..] == NatToString(-i);
      var t := NatToString(-i);
      assert t != "0" by { assert DigitsValue("0") == 0; }
      assert |t| == 1 ==> t == [t[0]];
      assert t[0] != '0';
      assert !CanonicalDigits(s);
    } else {
      NatToStringValue(i);
    }
  }

  /** Distinct strings never collapse onto the same key. */
  lemma NormalizeKeyInjective(s: string, t: string)
    requires NormalizeKey(s) == NormalizeKey(t)
    ensures s == t
  {
    if NormalizeKey(s).IntKey? {
      CanonicalDecimalRoundTrip(s);
      CanonicalDecimalRoundTrip(t);
    }
  }

  lemma CanonicalDecimalRoundTrip(s: string)
    requires IsCanonicalDecimal(s)
    ensures IntToString(DecimalValue(s)) == s
  {
    if CanonicalDigits(s) {
      DigitsValueToString(s);
    } else {
      var t := s[1..];
      LeadingDigitPositive(t);
      DigitsValueToString(t);
      assert s == "-" + t;
    }
  }
}
