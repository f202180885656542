/** JavaScript values as they arrive in a parsed request body, and the few
    JavaScript operators the form service applies to them: truthiness, `||`,
    `??`, optional property access and `String(...)`. */
module JsValue {

  /** A value. An object is the list of its entries in the order given;
      that this is the order `Object.entries` reports is assumed (JavaScript
      lists integer-like keys first). */
  datatype Json =
    | Undefined
    | Null
    | Bool(b: bool)
    | Num(n: int)
    | Str(s: string)
    | Arr(elems: seq<Json>)
    | Obj(entries: seq<Entry>)

  datatype Entry = Entry(key: string, val: Json)

  /** JavaScript truthiness: `undefined`, `null`, `false`, `0` and `""` are falsy. */
  predicate Truthy(v: Json) {
    match v
    case Undefined => false
    case Null => false
    case Bool(b) => b
    case Num(n) => n != 0
    case Str(s) => s != ""
    case Arr(_) => true
    case Obj(_) => true
  }

  predicate Nullish(v: Json) {
    v.Undefined? || v.Null?
  }

  /** `a || b` */
  function Or(a: Json, b: Json): (r: Json)
    ensures Truthy(b) ==> Truthy(r)
    ensures Truthy(a) ==> r == a
    ensures !Truthy(a) ==> r == b
  {
    if Truthy(a) then a else b
  }

  /** `a ?? b` */
  function Coalesce(a: Json, b: Json): (r: Json)
    ensures !Nullish(a) ==> r == a
    ensures Nullish(a) ==> r == b
  {
    if Nullish(a) then b else a
  }

  /** The value of the first entry named `key`; `undefined` when there is none. */
  function Lookup(entries: seq<Entry>, key: string): (r: Json)
    ensures (forall i :: 0 <= i < |entries| ==> entries[i].key != key) ==> r == Undefined
    ensures r != Undefined ==> exists i :: 0 <= i < |entries| && entries[i] == Entry(key, r)
  {
    if entries == [] then Undefined
    else if entries[0].key == key then entries[0].val
    else Lookup(entries[1..], key)
  }

  /** The entry found is the first one named `key`. */
  lemma {:induction false} LookupFirst(entries: seq<Entry>, key: string, i: nat)
    requires i < |entries| && entries[i].key == key
    requires forall j :: 0 <= j < i ==> entries[j].key != key
    ensures Lookup(entries, key) == entries[i].val
  {
    if i > 0 {
      LookupFirst(entries[1..], key, i - 1);
    }
  }

  /** `v?.key`; for a value that is not nullish this is `v.key`. Only objects
      carry the property names the form service reads. */
  function Member(v: Json, key: string): (r: Json)
    ensures !v.Obj? ==> r == Undefined
  {
    if v.Obj? then Lookup(v.entries, key) else Undefined
  }

  /** `v?.[0]` */
  function Index0(v: Json): (r: Json)
    ensures Nullish(v) ==> r == Undefined
    ensures v.Arr? && |v.elems| > 0 ==> r == v.elems[0]
  {
    match v
    case Arr(es) => if |es| > 0 then es[0] else Undefined
    case Obj(es) => Lookup(es, "0")
    case Str(s) => if |s| > 0 then Str([s[0]]) else Undefined
    case _ => Undefined
  }

  /** The decimal digit `d`. */
  function Digit(d: nat): (c: char)
    requires d < 10
    ensures '0' <= c <= '9' && c as int - '0' as int == d
  {
    ('0' as int + d) as char
  }

  predicate IsDigits(s: string) {
    forall i :: 0 <= i < |s| ==> '0' <= s[i] <= '9'
  }

  /** The decimal numeral of `n`, as `String(n)` writes it. */
  function NatToString(n: nat): (s: string)
    ensures |s| >= 1 && IsDigits(s)
    ensures s[0] == '0' ==> n == 0
  {
    if n < 10 then [Digit(n)] else NatToString(n / 10) + [Digit(n % 10)]
  }

  /** The number a string of decimal digits denotes. */
  function ParseDigits(s: string): nat
    requires IsDigits(s)
  {
    if s == [] then 0 else ParseDigits(s[..|s| - 1]) * 10 + (s[|s| - 1] as int - '0' as int)
  }

  lemma {:induction false} ParseNatToString(n: nat)
    ensures ParseDigits(NatToString(n)) == n
  {
    if n >= 10 {
      var s := NatToString(n);
      assert s[..|s| - 1] == NatToString(n / 10);
      ParseNatToString(n / 10);
    }
  }

  /** Distinct numbers have distinct numerals. */
  lemma NatToStringInjective(a: nat, b: nat)
    ensures NatToString(a) == NatToString(b) ==> a == b
  {
    ParseNatToString(a);
    ParseNatToString(b);
  }

  function IntToString(n: int): (s: string)
    ensures n >= 0 ==> s == NatToString(n)
    ensures n < 0 ==> s == "-" + NatToString(-n)
  {
    if n < 0 then "-" + NatToString(-n) else NatToString(n)
  }

  /** `String(v)`. An array is converted by joining its elements with ","
      (null and undefined elements become empty), an object becomes
      "[object Object]". */
  function ToStr(v: Json): (s: string)
    ensures v.Str? ==> s == v.s
    ensures v.Num? ==> s == IntToString(v.n)
    decreases v
  {
    match v
    case Undefined => "undefined"
    case Null => "null"
    case Bool(b) => if b then "true" else "false"
    case Num(n) => IntToString(n)
    case Str(s) => s
    case Arr(es) => JoinComma(seq(|es|, i requires 0 <= i < |es| => if Nullish(es[i]) then "" else ToStr(es[i])))
    case Obj(_) => "[object Object]"
  }

  /** `ss.join(",")` */
  function JoinComma(ss: seq<string>): (s: string)
    ensures |ss| == 1 ==> s == ss[0]
  {
    if ss == [] then "" else if |ss| == 1 then ss[0] else ss[0] + "," + JoinComma(ss[1..])
  }
}
