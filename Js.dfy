/**
  The slice of JavaScript semantics that the component and style code relies on:
  values, property reads, `??`, object spread, template-string rendering and
  indexing an object literal with a computed key.
 */
module Js {

  /** A JavaScript value as these components see it. Numbers are integers
      (every number literal in the modelled code is one), and an object is its
      own enumerable properties. */
  datatype Value =
    | Undefined
    | Null
    | Bool(b: bool)
    | Num(n: int)
    | Str(s: string)
    | Obj(props: map<string, Value>)

  /** The props or style object handed to a component: property name to value. */
  type Props = map<string, Value>

  datatype Option<+T> = None | Some(value: T)

  /** `v === null || v === undefined`: the only values `??` and `?.` skip. */
  predicate IsNullish(v: Value) {
    v.Undefined? || v.Null?
  }

  /** `a ?? b` */
  function Coalesce(a: Value, b: Value): Value {
    if IsNullish(a) then b else a
  }

  /** `a === b`. Objects are compared by their contents here, not by reference. */
  predicate StrictEquals(a: Value, b: Value) {
    a == b
  }

  /** Reading `p.k` from an object literal: a missing property reads as `undefined`. */
  function Get(p: Props, k: string): Value {
    if k in p then p[k] else Undefined
  }

  /** `v?.k`: `undefined` when `v` is nullish or has no own property `k`. */
  function Member(v: Value, k: string): Value {
    match v
    case Obj(p) => Get(p, k)
    case _ => Undefined
  }

  /** lodash `get(obj, key)` for a key with no `.` or `[`, which lodash treats as
      a single property name. */
  function LodashGet(obj: Value, key: string): Value
    requires forall i :: 0 <= i < |key| ==> key[i] != '.' && key[i] != '['
  {
    Member(obj, key)
  }

  /** `{ ...v }`: the own properties of an object; spreading `undefined`, `null`,
      a boolean or a number adds nothing. */
  function Spread(v: Value): Props {
    match v
    case Obj(p) => p
    case _ => map[]
  }

  /** `{ ...a, ...b }`: every key of either side, and on a shared key the later
      object wins. */
  function Merge(a: Props, b: Props): (r: Props)
    ensures r.Keys == a.Keys + b.Keys
    ensures forall k :: k in b ==> r[k] == b[k]
    ensures forall k :: k in a && k !in b ==> r[k] == a[k]
  {
    a + b
  }

  /** Spreading `undefined` into an object leaves it as it was. */
  lemma MergeSpreadUndefined(a: Props)
    ensures Merge(a, Spread(Undefined)) == a
    ensures Merge(Spread(Undefined), a) == a
  {
  }

  /** Spreading four objects with pairwise disjoint keys keeps every entry of
      each. */
  lemma MergeDisjoint4(a: Props, b: Props, c: Props, d: Props)
    requires a.Keys !! b.Keys && a.Keys !! c.Keys && a.Keys !! d.Keys
    requires b.Keys !! c.Keys && b.Keys !! d.Keys && c.Keys !! d.Keys
    ensures var r := Merge(Merge(Merge(a, b), c), d);
      && r.Keys == a.Keys + b.Keys + c.Keys + d.Keys
      && (forall k :: k in a ==> r[k] == a[k])
      && (forall k :: k in b ==> r[k] == b[k])
      && (forall k :: k in c ==> r[k] == c[k])
      && (forall k :: k in d ==> r[k] == d[k])
  {
  }

  /** The character of a decimal digit. */
  function Digit(d: nat): (c: char)
    requires d < 10
    ensures '0' <= c <= '9'
  {
    (48 + d) as char
  }

  predicate IsDigit(c: char) {
    '0' <= c <= '9'
  }

  /** The decimal form of a natural number: digits only, never empty, and no
      leading zero except for 0 itself. */
  function NatToDecimal(n: nat): (s: string)
    ensures |s| >= 1
    ensures n >= 10 ==> |s| >= 2
    ensures forall i :: 0 <= i < |s| ==> IsDigit(s[i])
    ensures s[0] == '0' ==> n == 0
    decreases n
  {
    if n < 10 then [Digit(n)] else NatToDecimal(n / 10) + [Digit(n % 10)]
  }

  /** `String(n)` for an integer: a `-` sign before the decimal form of `|n|`. */
  function IntToDecimal(n: int): (s: string)
    ensures |s| >= 1
    ensures n < 0 <==> s[0] == '-'
    ensures n >= 0 ==> forall i :: 0 <= i < |s| ==> IsDigit(s[i])
  {
    if n < 0 then "-" + NatToDecimal(-n) else NatToDecimal(n)
  }

  /** Two natural numbers with the same decimal form are equal. */
  lemma {:induction false} NatToDecimalInjective(a: nat, b: nat)
    requires NatToDecimal(a) == NatToDecimal(b)
    ensures a == b
  {
    var s := NatToDecimal(a);
    if a < 10 && b < 10 {
      assert Digit(a) == s[0] == Digit(b);
    } else if a < 10 || b < 10 {
      // one form has a single digit and the other at least two
    } else {
      assert NatToDecimal(a / 10) == s[..|s| - 1] == NatToDecimal(b / 10);
      NatToDecimalInjective(a / 10, b / 10);
      assert Digit(a % 10) == s[|s| - 1] == Digit(b % 10);
    }
  }

  /** Two integers with the same decimal form are equal. */
  lemma IntToDecimalInjective(a: int, b: int)
    requires IntToDecimal(a) == IntToDecimal(b)
    ensures a == b
  {
    if a < 0 {
      assert NatToDecimal(-a) == IntToDecimal(a)[1..] == NatToDecimal(-b);
      NatToDecimalInjective(-a, -b);
    } else {
      NatToDecimalInjective(a, b);
    }
  }

  /** `String(v)`, which is also how a template literal renders `${v}` and how a
      computed key `obj[v]` becomes a property name. */
  function ToString(v: Value): string {
    match v
    case Undefined => "undefined"
    case Null => "null"
    case Bool(b) => if b then "true" else "false"
    case Num(n) => IntToDecimal(n)
    case Str(s) => s
    case Obj(_) => "[object Object]"
  }

  /** `table[key]` on an object literal: the key is turned into a property name
      first, and a name the literal does not define reads as `undefined`. */
  function Index(table: Props, key: Value): Value {
    Get(table, ToString(key))
  }

  /** Putting the same text before two different strings keeps them different. */
  lemma PrefixKeepsDistinct(prefix: string, a: string, b: string)
    requires a != b
    ensures prefix + a != prefix + b
  {
    assert (prefix + a)[|prefix|..] == a;
    assert (prefix + b)[|prefix|..] == b;
  }

  /** A property name that no value other than the string itself turns into:
      it starts with a lower-case letter and is not the text of `undefined`,
      `null`, `true` or `false`. */
  predicate PlainName(k: string) {
    |k| > 0 && 'a' <= k[0] <= 'z' && k != "undefined" && k != "null" && k != "true" && k != "false"
  }

  /** Indexing a table whose names are all plain finds an entry only for a
      string key naming it. */
  lemma IndexPlainNames(table: Props, key: Value)
    requires forall k :: k in table ==> PlainName(k)
    ensures Index(table, key) == (if key.Str? && key.s in table then table[key.s] else Undefined)
  {
    if key.Num? {
      assert ToString(key)[0] == '-' || IsDigit(ToString(key)[0]);
    }
  }

  /** Strings and integers render to distinct text whenever they differ. */
  lemma ToStringInjectiveOnKind(a: Value, b: Value)
    requires (a.Str? && b.Str?) || (a.Num? && b.Num?)
    requires ToString(a) == ToString(b)
    ensures a == b
  {
    if a.Num? {
      IntToDecimalInjective(a.n, b.n);
    }
  }
}
