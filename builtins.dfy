/** The pieces of Python's built-in behaviour that the collector relies on:
    optional values, the exception kinds it raises, insertion-ordered
    dictionaries, `str()` of an integer and `str.join`. */
module Builtins {

  datatype Option<+T> = None | Some(value: T)

  /** An exception of one of the built-in kinds; `message` is `str(exception)`. */
  datatype Exception =
    | TypeError(message: string)
    | ValueError(message: string)
    | AttributeError(message: string)
    | RuntimeError(message: string)

  /** A value, or the exception raised while computing it. */
  datatype Try<+T> = Ok(value: T) | Err(error: Exception)

  /** A Python `dict`: a finite map that remembers the order in which its
      keys were first inserted; iteration follows `keys`. */
  datatype Dict<K(==,!new), V> = Dict(keys: seq<K>, items: map<K, V>) {

    /** Keys are listed once each, and exactly the mapped keys are listed. */
    ghost predicate Valid() {
      && (forall i, j :: 0 <= i < j < |keys| ==> keys[i] != keys[j])
      && (forall k :: k in items <==> k in keys)
    }

    /** `d.get(k)` */
    function Get(k: K): (r: Option<V>)
      ensures r.Some? <==> k in items
      ensures r.Some? ==> r.value == items[k]
    {
      if k in items then Some(items[k]) else None
    }

    /** `d[k] = v`: an existing key keeps its position, a new key goes last. */
    function Put(k: K, v: V): (d: Dict<K, V>)
      ensures d.items == items[k := v]
      ensures k in items ==> d.keys == keys
      ensures k !in items ==> d.keys == keys + [k]
      ensures Valid() ==> d.Valid()
    {
      if k in items then Dict(keys, items[k := v]) else Dict(keys + [k], items[k := v])
    }
  }

  function EmptyDict<K(==,!new), V>(): (d: Dict<K, V>)
    ensures d.Valid() && d.keys == [] && d.items == map[]
  {
    Dict([], map[])
  }

  predicate IsDigit(c: char) { '0' <= c <= '9' }

  predicate AllDigits(s: string) { forall i :: 0 <= i < |s| ==> IsDigit(s[i]) }

  function DigitChar(d: nat): char
    requires d < 10
  {
    "0123456789"[d]
  }

  function DigitValue(c: char): nat
    requires IsDigit(c)
  {
    (c as int - '0' as int) as nat
  }

  /** `str(n)` for a natural number: its decimal digits, no leading zeros. */
  function NatToString(n: nat): (s: string)
    decreases n
  {
    if n < 10 then [DigitChar(n)] else NatToString(n / 10) + [DigitChar(n % 10)]
  }

  /** `str(i)` for an integer: a minus sign before the digits when negative. */
  function IntToString(i: int): (s: string)
  {
    if i < 0 then "-" + NatToString(-i) else NatToString(i)
  }

  /** Reads a run of decimal digits back as a number (`int(s)`). */
  function ParseNat(s: string): nat
    requires AllDigits(s)
  {
    if s == [] then 0 else ParseNat(s[..|s| - 1]) * 10 + DigitValue(s[|s| - 1])
  }

  /** The decimal rendering is non-empty, all digits, and reads back as the
      number it came from. */
  lemma {:induction false} NatToStringRoundTrip(n: nat)
    ensures |NatToString(n)| > 0 && AllDigits(NatToString(n))
    ensures ParseNat(NatToString(n)) == n
    decreases n
  {
    if n >= 10 {
      NatToStringRoundTrip(n / 10);
      var s := NatToString(n);
      assert s[..|s| - 1] == NatToString(n / 10);
    }
  }

  /** `sep.join(parts)` */
  function Join(parts: seq<string>, sep: string): string
  {
    if |parts| == 0 then ""
    else if |parts| == 1 then parts[0]
    else parts[0] + sep + Join(parts[1..], sep)
  }

  /** `[x] * n` */
  function Repeat<T>(x: T, n: nat): (r: seq<T>)
    ensures |r| == n && forall i :: 0 <= i < n ==> r[i] == x
  {
    if n == 0 then [] else [x] + Repeat(x, n - 1)
  }
}
