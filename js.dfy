/** The pieces of JavaScript's built-in behaviour that the explorer's core
    leans on, stated as values and functions: plain objects with string keys
    and the spread update `{...o, [k]: v}`, `Array.prototype.slice`, the
    `toString` of integers and of string arrays, and JSON values. */
module Js {
  import opened Wrappers

  // ---------------------------------------------------------------------
  // Plain objects: own properties in enumeration order, keys distinct.
  // ---------------------------------------------------------------------

  function Keys<V>(fields: seq<(string, V)>): (ks: seq<string>)
    ensures |ks| == |fields|
    ensures forall i :: 0 <= i < |fields| ==> ks[i] == fields[i].0
  {
    if |fields| == 0 then [] else [fields[0].0] + Keys(fields[1..])
  }

  predicate DistinctKeys<V>(fields: seq<(string, V)>) {
    forall i, j :: 0 <= i < j < |fields| ==> fields[i].0 != fields[j].0
  }

  /** A JavaScript object such as `Record<string, any>`: a property list in
      which no key occurs twice. */
  type Object<V> = fields: seq<(string, V)> | DistinctKeys(fields) witness []

  /** `o[k]`, with `None` for a property the object does not have. */
  function Get<V>(o: Object<V>, k: string): (r: Option<V>)
    ensures r.Some? <==> k in Keys(o)
    ensures r.Some? ==> (k, r.value) in o
  {
    if |o| == 0 then None
    else if o[0].0 == k then Some(o[0].1)
    else Get(o[1..], k)
  }

  /** Where key `k` sits in `o`. */
  function IndexOf<V>(o: seq<(string, V)>, k: string): (i: nat)
    requires k in Keys(o)
    ensures i < |o| && o[i].0 == k
  {
    if o[0].0 == k then 0 else IndexOf(o[1..], k) + 1
  }

  /** The spread update `{...o, [k]: v}`: a key already present keeps its
      place and takes the new value; a new key is enumerated last. */
  function Put<V>(o: Object<V>, k: string, v: V): (r: Object<V>)
    ensures Keys(r) == if k in Keys(o) then Keys(o) else Keys(o) + [k]
  {
    if k in Keys(o) then o[IndexOf(o, k) := (k, v)] else o + [(k, v)]
  }

  /** Reading the property at position `i` yields the value stored there. */
  lemma {:induction false} GetAt<V>(o: Object<V>, i: nat)
    requires i < |o|
    ensures Get(o, o[i].0) == Some(o[i].1)
    decreases i
  {
    if i > 0 {
      var tail: Object<V> := o[1..];
      GetAt(tail, i - 1);
    }
  }

  /** After `{...o, [k]: v}`, key `k` reads `v` and every other key reads
      what it read before. */
  lemma PutGet<V>(o: Object<V>, k: string, v: V, j: string)
    ensures Get(Put(o, k, v), j) == if j == k then Some(v) else Get(o, j)
  {
    var r := Put(o, k, v);
    if j == k {
      GetAt(r, if k in Keys(o) then IndexOf(o, k) else |o|);
    } else if j in Keys(o) {
      var m := IndexOf(o, j);
      GetAt(o, m);
      GetAt(r, m);
    }
  }

  // ---------------------------------------------------------------------
  // Array.prototype.slice
  // ---------------------------------------------------------------------

  function Min(a: int, b: int): int { if a <= b then a else b }

  function Max(a: int, b: int): int { if a <= b then b else a }

  /** How `slice` turns a relative index into a position: a negative one
      counts back from the end, and both are clamped to `[0, len]`. */
  function RelativeIndex(i: int, len: nat): (r: nat)
    ensures r <= len
  {
    if i < 0 then Max(len + i, 0) else Min(i, len)
  }

  /** `s.slice(start, end)`. */
  function Slice<T>(s: seq<T>, start: int, end: int): (r: seq<T>)
    ensures |r| <= |s|
    ensures 0 <= start <= end ==> r == s[Min(start, |s|)..Min(end, |s|)]
    ensures end == 0 ==> r == []
  {
    var b := RelativeIndex(start, |s|);
    var e := RelativeIndex(end, |s|);
    if b < e then s[b..e] else []
  }

  // ---------------------------------------------------------------------
  // Number.prototype.toString on integers, and its inverse
  // ---------------------------------------------------------------------

  predicate IsDigit(c: char) { '0' <= c <= '9' }

  predicate AllDigits(s: string) { forall i :: 0 <= i < |s| ==> IsDigit(s[i]) }

  function DigitChar(d: nat): (c: char)
    requires d < 10
    ensures IsDigit(c) && c as int - '0' as int == d
  {
    (d + '0' as int) as char
  }

  function DigitValue(c: char): nat
    requires IsDigit(c)
  {
    c as int - '0' as int
  }

  /** Decimal digits of `n`, most significant first, without leading zeros. */
  function NatToString(n: nat): (s: string)
    ensures |s| > 0 && AllDigits(s)
    decreases n
  {
    if n < 10 then [DigitChar(n)] else NatToString(n / 10) + [DigitChar(n % 10)]
  }

  /** The value of a string of decimal digits. */
  function ParseNat(s: string): nat
    requires AllDigits(s)
  {
    if |s| == 0 then 0 else ParseNat(s[..|s| - 1]) * 10 + DigitValue(s[|s| - 1])
  }

  /** `n.toString()` for an integer `n`. */
  function IntToString(n: int): string {
    if n < 0 then "-" + NatToString(-n) else NatToString(n)
  }

  /** Reads back a string that `IntToString` can produce. */
  function ParseInt(s: string): Option<int> {
    if |s| > 1 && s[0] == '-' && AllDigits(s[1..]) then Some(0 - ParseNat(s[1..]) as int)
    else if |s| > 0 && AllDigits(s) then Some(ParseNat(s))
    else None
  }

  lemma {:induction false} ParseNatToString(n: nat)
    ensures ParseNat(NatToString(n)) == n
    decreases n
  {
    if n >= 10 {
      var s := NatToString(n / 10);
      ParseNatToString(n / 10);
      var t := s + [DigitChar(n % 10)];
      assert t[..|t| - 1] == s;
    }
  }

  /** The decimal text of an integer reads back as that integer. */
  lemma IntToStringRoundTrip(n: int)
    ensures ParseInt(IntToString(n)) == Some(n)
  {
    if n < 0 {
      ParseNatToString(-n);
      assert IntToString(n)[1..] == NatToString(-n);
    } else {
      ParseNatToString(n);
    }
  }

  // ---------------------------------------------------------------------
  // Array.prototype.toString on string arrays, and a comma split
  // ---------------------------------------------------------------------

  /** `xs.toString()` for an array of strings: the elements joined by ",". */
  function JoinCommas(xs: seq<string>): string {
    if |xs| == 0 then ""
    else if |xs| == 1 then xs[0]
    else xs[0] + "," + JoinCommas(xs[1..])
  }

  /** Cuts a string at every ",". */
  function SplitCommas(s: string): (r: seq<string>)
    ensures |r| > 0
  {
    if |s| == 0 then [""]
    else if s[0] == ',' then [""] + SplitCommas(s[1..])
    else
      var t := SplitCommas(s[1..]);
      [[s[0]] + t[0]] + t[1..]
  }

  lemma {:induction false} SplitCommaFree(x: string)
    requires ',' !in x
    ensures SplitCommas(x) == [x]
    decreases |x|
  {
    if |x| > 0 {
      assert ',' !in x[1..] by { assert forall c :: c in x[1..] ==> c in x; }
      SplitCommaFree(x[1..]);
      assert [x[0]] + x[1..] == x;
    }
  }

  lemma {:induction false} SplitAfterItem(x: string, rest: string)
    requires ',' !in x
    ensures SplitCommas(x + "," + rest) == [x] + SplitCommas(rest)
    decreases |x|
  {
    if |x| == 0 {
      assert x + "," + rest == [','] + rest;
      assert ([','] + rest)[1..] == rest;
    } else {
      assert ',' !in x[1..] by { assert forall c :: c in x[1..] ==> c in x; }
      SplitAfterItem(x[1..], rest);
      var s := x + "," + rest;
      assert s[0] == x[0] && s[0] != ',';
      assert s[1..] == x[1..] + "," + rest;
      assert [x[0]] + x[1..] == x;
    }
  }

  /** A non-empty array of strings without commas is recovered from its
      `toString` by cutting at the commas. */
  lemma {:induction false} JoinSplitRoundTrip(xs: seq<string>)
    requires |xs| > 0
    requires forall i :: 0 <= i < |xs| ==> ',' !in xs[i]
    ensures SplitCommas(JoinCommas(xs)) == xs
    decreases |xs|
  {
    if |xs| == 1 {
      SplitCommaFree(xs[0]);
    } else {
      JoinSplitRoundTrip(xs[1..]);
      SplitAfterItem(xs[0], JoinCommas(xs[1..]));
    }
  }

  // ---------------------------------------------------------------------
  // JSON values and `a || b` on strings
  // ---------------------------------------------------------------------

  /** A parsed JSON value (numbers restricted to integers). */
  datatype Json =
    | Null
    | Bool(b: bool)
    | Num(n: int)
    | Str(s: string)
    | Arr(items: seq<Json>)
    | Obj(fields: Object<Json>)

  /** `s || fallback` where `s` is a string: the empty string is falsy. */
  function OrElse(s: string, fallback: string): string {
    if s == "" then fallback else s
  }
}
