/**
 * The handful of PHP value rules the module relies on: scalar values as they
 * appear in configuration arrays, `isset`, `empty`, string conversion and the
 * array union operator `+`.
 */
module Php {

  /** A scalar PHP value as stored in configuration or form state. */
  datatype Value = Null | Bool(b: bool) | Int(i: int) | Str(s: string)

  /** A PHP array with string keys, such as one server record. Key order is not modelled. */
  type Record = map<string, Value>

  /** `$a[$k] ?? NULL`: a missing key reads as null. */
  function Get(a: Record, k: string): Value {
    if k in a then a[k] else Null
  }

  /** `isset($a[$k])`: the key is present and its value is not null. */
  predicate IsSet(a: Record, k: string) {
    k in a && a[k] != Null
  }


  /** `$v ?? $default` on a value read from an array. */
  function Coalesce(v: Value, default: Value): (r: Value)
    ensures default != Null ==> r != Null
    ensures v != Null ==> r == v
    ensures v == Null ==> r == default
  {
    if v == Null then default else v
  }

  function Digit(d: nat): (c: char)
    requires d < 10
    ensures '0' <= c <= '9'
  {
    ('0' as int + d) as char
  }

  /** Decimal digits of `n`, most significant first, without leading zeros. */
  function NatToDecimal(n: nat): (s: string)
    ensures |s| >= 1
    ensures forall i :: 0 <= i < |s| ==> '0' <= s[i] <= '9'
    ensures s == "0" <==> n == 0
    ensures n > 0 ==> s[0] != '0'
  {
    if n < 10 then [Digit(n)] else NatToDecimal(n / 10) + [Digit(n % 10)]
  }

  /** The number a string of decimal digits denotes. */
  function DecimalValue(s: string): nat
    requires forall i :: 0 <= i < |s| ==> '0' <= s[i] <= '9'
  {
    if s == [] then 0
    else DecimalValue(s[..|s| - 1]) * 10 + (s[|s| - 1] as int - '0' as int)
  }

  /** Printing a number in decimal and reading it back gives the number. */
  lemma {:induction false} DecimalRoundTrip(n: nat)
    ensures DecimalValue(NatToDecimal(n)) == n
  {
    if n >= 10 {
      var prefix := NatToDecimal(n / 10);
      var s := prefix + [Digit(n % 10)];
      assert s[..|s| - 1] == prefix;
      DecimalRoundTrip(n / 10);
    }
  }

  function IntToDecimal(i: int): (s: string) {
    if i < 0 then "-" + NatToDecimal(-i) else NatToDecimal(i)
  }

  /**
   * PHP's conversion of a scalar to string, as in `(string) $v` or `"$v"`:
   * null and false print nothing, true prints "1", a string is itself and an
   * integer prints as its canonical decimal form, which reads back as it.
   */
  function ToPhpString(v: Value): (s: string)
    ensures v == Null || v == Bool(false) ==> s == ""
    ensures v == Bool(true) ==> s == "1"
    ensures v.Str? ==> s == v.s
    ensures v.Int? && v.i >= 0 ==>
              |s| >= 1 && (forall k :: 0 <= k < |s| ==> '0' <= s[k] <= '9') && DecimalValue(s) == v.i
              && (s[0] != '0' || s == "0")
    ensures v.Int? && v.i < 0 ==>
              |s| >= 2 && s[0] == '-' && (forall k :: 1 <= k < |s| ==> '0' <= s[k] <= '9')
              && DecimalValue(s[1..]) == -v.i && s[1] != '0'
  {
    match v
    case Null => ""
    case Bool(b) => if b then "1" else ""
    case Int(i) =>
      DecimalRoundTrip(if i < 0 then -i else i);
      IntToDecimal(i)
    case Str(s) => s
  }

  /** `empty($v)`: exactly the scalars whose string form is "" or "0" (null, false, 0, "" and "0"). */
  function IsEmpty(v: Value): (b: bool)
    ensures b <==> ToPhpString(v) == "" || ToPhpString(v) == "0"
  {
    match v
    case Null => true
    case Bool(b) => !b
    case Int(i) => i == 0
    case Str(s) => s == "" || s == "0"
  }

  /**
   * The array union `$left + $right`: every key of `$left` with its own value,
   * and the keys of `$right` that `$left` lacks. On a shared key `$left` wins.
   */
  function ArrayUnion(left: Record, right: Record): (u: Record)
    ensures u.Keys == left.Keys + right.Keys
    ensures forall k :: k in left ==> u[k] == left[k]
    ensures forall k :: k in right && k !in left ==> u[k] == right[k]
  {
    right + left
  }

  /** Adding an empty array changes nothing. */
  lemma UnionWithEmpty(a: Record)
    ensures ArrayUnion(a, map[]) == a
    ensures ArrayUnion(map[], a) == a
  {
  }

  /** When the keys are disjoint the union does not depend on the order of its operands. */
  lemma UnionOfDisjointCommutes(a: Record, b: Record)
    requires a.Keys !! b.Keys
    ensures ArrayUnion(a, b) == ArrayUnion(b, a)
  {
  }

  predicate Distinct(s: seq<int>) {
    forall i, j :: 0 <= i < j < |s| ==> s[i] != s[j]
  }

  /**
   * A PHP array of records with integer keys, such as the list of servers:
   * its keys in iteration (insertion) order, the entry under each key, and
   * the next free index that `$a[] = ...` writes at.
   */
  datatype KeyedList = KeyedList(order: seq<int>, entries: map<int, Record>, nextFree: int) {
    predicate Valid() {
      && (forall k :: k in order ==> k in entries && k < nextFree)
      && (forall k :: k in entries ==> k in order)
      && Distinct(order)
    }
  }

  type RecordList = a: KeyedList | a.Valid() witness KeyedList([], map[], 0)

  /** The PHP literal `[]`. */
  const EmptyList: RecordList := KeyedList([], map[], 0)

  /** The entries in iteration order, as `foreach` or `array_filter` visit them. */
  function Values(a: RecordList): (r: seq<Record>)
    ensures |r| == |a.order|
    ensures forall i :: 0 <= i < |r| ==> a.order[i] in a.entries && r[i] == a.entries[a.order[i]]
  {
    assert forall i :: 0 <= i < |a.order| ==> a.order[i] in a.order;
    seq(|a.order|, i requires 0 <= i < |a.order| => a.entries[a.order[i]])
  }

  /** `s` with every occurrence of `x` taken out, the rest in the same order. */
  function Without(s: seq<int>, x: int): (r: seq<int>)
    ensures forall y :: y in r <==> y in s && y != x
    ensures Distinct(s) ==> Distinct(r)
    ensures x !in s ==> r == s
    ensures Distinct(s) && x in s ==> exists i :: 0 <= i < |s| && s[i] == x && r == s[..i] + s[i + 1..]
  {
    if s == [] then []
    else
      var rest := Without(s[1..], x);
      if Distinct(s) then
        DistinctTail(s);
        if s[0] == x then
          assert rest == s[..0] + s[1..];
          rest
        else if x in s then
          WithoutKeepsOrder(s, x, rest);
          [s[0]] + rest
        else
          [s[0]] + rest
      else if s[0] == x then rest
      else [s[0]] + rest
  }

  lemma DistinctTail(s: seq<int>)
    requires |s| > 0 && Distinct(s)
    ensures Distinct(s[1..]) && s[0] !in s[1..]
  {
  }

  /** One step of `Without`'s closed form: keeping the head in front of the shortened tail. */
  lemma WithoutKeepsOrder(s: seq<int>, x: int, rest: seq<int>)
    requires |s| > 0 && s[0] != x
    requires exists j :: 0 <= j < |s| - 1 && s[1..][j] == x && rest == s[1..][..j] + s[1..][j + 1..]
    ensures exists i :: 0 <= i < |s| && s[i] == x && [s[0]] + rest == s[..i] + s[i + 1..]
  {
    var j :| 0 <= j < |s| - 1 && s[1..][j] == x && rest == s[1..][..j] + s[1..][j + 1..];
    assert s[..j + 1] == [s[0]] + s[1..][..j];
    assert s[j + 2..] == s[1..][j + 1..];
    assert s[j + 1] == x && [s[0]] + rest == s[..j + 1] + s[j + 2..];
  }

  /** Taking out an element that was just appended gives the sequence back. */
  lemma {:induction false} WithoutLast(s: seq<int>, x: int)
    requires x !in s
    ensures Without(s + [x], x) == s
  {
    if s != [] {
      assert (s + [x])[1..] == s[1..] + [x];
      WithoutLast(s[1..], x);
    }
  }

  /** `$a[] = $record`: stored under the next free index, after every existing entry. */
  function Append(a: RecordList, record: Record): (r: RecordList)
    ensures |r.entries| == |a.entries| + 1
    ensures forall k :: k in a.entries ==> k in r.entries && r.entries[k] == a.entries[k]
    ensures forall k :: k in r.entries && k !in a.entries ==>
              r.entries[k] == record && forall j :: j in a.entries ==> j < k
    ensures Values(r) == Values(a) + [record]
  {
    assert a.nextFree !in a.order;
    var r := KeyedList(a.order + [a.nextFree], a.entries[a.nextFree := record], a.nextFree + 1);
    assert Values(r) == Values(a) + [record];
    r
  }

  /** `unset($a[$delta])`: that key disappears; no other key or entry changes, nothing is renumbered. */
  function Unset(a: RecordList, delta: int): (r: RecordList)
    ensures r.entries.Keys == a.entries.Keys - {delta}
    ensures forall k :: k in r.entries ==> r.entries[k] == a.entries[k]
    ensures r.order == Without(a.order, delta)
    ensures delta !in a.entries ==> r == a
    ensures delta in a.entries ==>
              exists i :: 0 <= i < |a.order| && a.order[i] == delta && r.order == a.order[..i] + a.order[i + 1..]
  {
    KeyedList(Without(a.order, delta), a.entries - {delta}, a.nextFree)
  }

  /**
   * After `unset` the remaining records are visited in the same relative
   * order: the removed key's record is cut out and nothing else moves.
   */
  lemma UnsetKeepsValueOrder(a: RecordList, delta: int)
    requires delta in a.entries
    ensures exists i :: 0 <= i < |a.order| && a.order[i] == delta
                        && Values(Unset(a, delta)) == Values(a)[..i] + Values(a)[i + 1..]
  {
    var r := Unset(a, delta);
    var i :| 0 <= i < |a.order| && a.order[i] == delta && r.order == a.order[..i] + a.order[i + 1..];
    var v, w := Values(a), Values(r);
    assert |w| == |v[..i] + v[i + 1..]|;
    forall k | 0 <= k < |w|
      ensures w[k] == (v[..i] + v[i + 1..])[k]
    {
      if k < i {
        assert r.order[k] == a.order[k];
      } else {
        assert r.order[k] == a.order[k + 1];
      }
    }
    assert w == v[..i] + v[i + 1..];
  }

  /** Unsetting the key an append just used gives back the same keys, order and entries. */
  lemma UnsetUndoesAppend(a: RecordList, record: Record)
    ensures Unset(Append(a, record), a.nextFree).order == a.order
    ensures Unset(Append(a, record), a.nextFree).entries == a.entries
  {
    var added := Append(a, record);
    assert added.order == a.order + [a.nextFree];
    assert added.entries == a.entries[a.nextFree := record];
    assert a.nextFree !in a.order;
    WithoutLast(a.order, a.nextFree);
    var r := Unset(added, a.nextFree);
    assert r.entries == added.entries - {a.nextFree};
    RemoveUpdatedKey(a.entries, a.nextFree, record);
  }

  lemma RemoveUpdatedKey(m: map<int, Record>, k: int, v: Record)
    requires k !in m
    ensures m[k := v] - {k} == m
  {
  }
}
