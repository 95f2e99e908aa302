/** JavaScript data as the services see it: request bodies, stored documents
    and parsed schema definitions, together with the handful of language
    operations the services apply to them (property reads, truthiness,
    strict equality, `String(.)`, `toLowerCase`, `includes`). */
module Json {
  import opened Results

  datatype Value =
    | Undefined
    | Null
    | Bool(b: bool)
    | Num(n: int)
    | Str(s: string)
    | Arr(elems: seq<Value>)
    | Obj(fields: map<string, Value>)

  /** A plain object: a record or a stored document. */
  type Doc = map<string, Value>

  /** `o[key]` on a plain object: the own value, or `undefined` when absent. */
  function Field(o: Doc, key: string): Value
  {
    if key in o then o[key] else Undefined
  }

  /** The members every plain object inherits from `Object.prototype`. */
  const InheritedMembers: set<string> := {
    "constructor", "__proto__", "hasOwnProperty", "isPrototypeOf", "propertyIsEnumerable",
    "toLocaleString", "toString", "valueOf",
    "__defineGetter__", "__defineSetter__", "__lookupGetter__", "__lookupSetter__"}

  /** `o[key]` for a computed key, which also finds the inherited members.
      Those are functions (and, for `__proto__`, the prototype object):
      truthy, not arrays, and without any of the keys the services read;
      the empty object stands in for them. */
  function Read(o: Doc, key: string): (r: Value)
    ensures key in o ==> r == o[key]
    ensures key !in o && key in InheritedMembers ==> Truthy(r) && !r.Arr? && Prop(r, "uuid") == Undefined
    ensures key !in o && key !in InheritedMembers ==> r == Undefined
  {
    if key in o then o[key] else if key in InheritedMembers then Obj(map[]) else Undefined
  }

  predicate Nullish(v: Value)
  {
    v.Undefined? || v.Null?
  }

  /** `v?.key`. Strings, numbers, booleans and arrays carry none of the
      keys the services read (`type`, `schemaId`, `items`, `uuid`,
      `properties`, `required`, `additionalProperties`). */
  function Prop(v: Value, key: string): Value
  {
    if v.Obj? then Field(v.fields, key) else Undefined
  }

  /** `v.key`, which throws on null and undefined. */
  function Member(v: Value, key: string): Result<Value>
  {
    if v.Null? then Failure(ReadOfNullish("null", key))
    else if v.Undefined? then Failure(ReadOfNullish("undefined", key))
    else Success(Prop(v, key))
  }

  /** JavaScript truthiness: objects and arrays are always truthy. */
  predicate Truthy(v: Value)
  {
    match v
    case Undefined => false
    case Null => false
    case Bool(b) => b
    case Num(n) => n != 0
    case Str(s) => s != ""
    case Arr(_) => true
    case Obj(_) => true
  }

  /** `a || b` */
  function Or(a: Value, b: Value): Value
  {
    if Truthy(a) then a else b
  }

  /** `a === b`: primitives compare by value; two objects or arrays are never
      identical here, since every value the services compare comes from a
      separate read or parse. */
  predicate StrictEquals(a: Value, b: Value)
  {
    a == b && !a.Arr? && !a.Obj?
  }

  function Digit(d: nat): char
    requires d < 10
  {
    "0123456789"[d]
  }

  function NatToString(n: nat): (r: string)
    ensures |r| >= 1
  {
    if n < 10 then [Digit(n)] else NatToString(n / 10) + [Digit(n % 10)]
  }

  /** Different numbers print differently. */
  lemma {:induction false} NatToStringInjective(a: nat, b: nat)
    requires NatToString(a) == NatToString(b)
    ensures a == b
    decreases a
  {
    var sa, sb := NatToString(a), NatToString(b);
    assert a < 10 <==> |sa| == 1;
    assert b < 10 <==> |sb| == 1;
    if a < 10 {
      assert "0123456789"[a] == sa[0] == sb[0] == "0123456789"[b];
    } else {
      var pa, pb := NatToString(a / 10), NatToString(b / 10);
      assert sa == pa + [Digit(a % 10)] && sb == pb + [Digit(b % 10)];
      assert pa == sa[..|sa| - 1] == sb[..|sb| - 1] == pb;
      assert "0123456789"[a % 10] == sa[|sa| - 1] == sb[|sb| - 1] == "0123456789"[b % 10];
      NatToStringInjective(a / 10, b / 10);
    }
  }

  /** The property name of array index `i`, as `String(i)` prints it. */
  function IndexName(i: nat): string
  {
    NatToString(i)
  }

  /** The property names `"0"`, `"1"`, ... of the first `n` indices. */
  function IndexKeys(n: nat): set<string>
  {
    if n == 0 then {} else IndexKeys(n - 1) + {IndexName(n - 1)}
  }

  /** The name of an index at or past `n` is none of the first `n` names. */
  lemma {:induction false} IndexKeyFresh(m: nat, n: nat)
    requires n <= m
    ensures IndexName(m) !in IndexKeys(n)
    decreases n
  {
    if n > 0 {
      IndexKeyFresh(m, n - 1);
      if IndexName(n - 1) == IndexName(m) {
        NatToStringInjective(n - 1, m);
      }
    }
  }

  /** The elements of a sequence under their index names, as
      `Object.entries` sees an array. */
  function IndexEntries(es: seq<Value>): (r: Doc)
    ensures r.Keys == IndexKeys(|es|)
    ensures forall i :: 0 <= i < |es| ==> IndexName(i) in r && r[IndexName(i)] == es[i]
    decreases |es|
  {
    if |es| == 0 then map[]
    else
      var n := |es| - 1;
      IndexKeyFresh(n, n);
      assert forall i :: 0 <= i < n ==> es[..n][i] == es[i];
      IndexEntries(es[..n])[IndexName(n) := es[n]]
  }

  /** The own enumerable properties of a value that is not null or
      undefined, as `Object.entries` and `Object.keys` see them: an object's
      fields, an array's elements or a string's characters under their index
      names, and none for a number or a boolean. */
  function OwnEntries(v: Value): (r: Doc)
    ensures v.Obj? ==> r == v.fields
    ensures v.Arr? ==> r.Keys == IndexKeys(|v.elems|) && forall i :: 0 <= i < |v.elems| ==> IndexName(i) in r && r[IndexName(i)] == v.elems[i]
    ensures v.Str? ==> r.Keys == IndexKeys(|v.s|) && forall i :: 0 <= i < |v.s| ==> IndexName(i) in r && r[IndexName(i)] == Str([v.s[i]])
    ensures v.Undefined? || v.Null? || v.Bool? || v.Num? ==> r == map[]
  {
    match v
    case Obj(fields) => fields
    case Arr(es) => IndexEntries(es)
    case Str(s) => IndexEntries(seq(|s|, i requires 0 <= i < |s| => Str([s[i]])))
    case _ => map[]
  }

  /** The first two index names are "0" and "1". */
  lemma IndexKeysOfTwo()
    ensures IndexKeys(2) == {"0", "1"}
  {
    assert IndexName(0) == "0" && IndexName(1) == "1";
  }

  function IntToString(n: int): string
  {
    if n < 0 then "-" + NatToString(-n) else NatToString(n)
  }

  /** `String(v)`, also the conversion of a template-literal hole. An array
      joins its elements with commas, rendering null and undefined elements
      as empty; every plain object renders as "[object Object]". */
  function ToStr(v: Value): string
  {
    match v
    case Undefined => "undefined"
    case Null => "null"
    case Bool(b) => if b then "true" else "false"
    case Num(n) => IntToString(n)
    case Str(s) => s
    case Obj(_) => "[object Object]"
    case Arr(es) =>
      JoinWithCommas(seq(|es|, i requires 0 <= i < |es| => if Nullish(es[i]) then "" else ToStr(es[i])))
  }

  function JoinWithCommas(parts: seq<string>): string
  {
    if |parts| == 0 then ""
    else if |parts| == 1 then parts[0]
    else parts[0] + "," + JoinWithCommas(parts[1..])
  }

  function LowerChar(c: char): char
  {
    if 'A' <= c <= 'Z' then (c as int + 32) as char else c
  }

  /** `s.toLowerCase()` (letters outside ASCII are left as they are). */
  function Lower(s: string): (r: string)
    ensures |r| == |s|
    ensures forall i :: 0 <= i < |s| && 'A' <= s[i] <= 'Z' ==> r[i] as int == s[i] as int + 32
    ensures forall i :: 0 <= i < |s| && !('A' <= s[i] <= 'Z') ==> r[i] == s[i]
    ensures forall i :: 0 <= i < |r| ==> !('A' <= r[i] <= 'Z')
  {
    seq(|s|, i requires 0 <= i < |s| => LowerChar(s[i]))
  }

  /** `s.includes(q)` */
  predicate Includes(s: string, q: string)
    decreases |s|
  {
    q <= s || (|s| > 0 && Includes(s[1..], q))
  }

  /** `q` occurs in `s` starting at offset `i`. */
  predicate OccursAt(s: string, q: string, i: nat)
  {
    i + |q| <= |s| && s[i..i + |q|] == q
  }

  /** `s.includes(q)` holds as soon as `q` occurs at some offset. */
  lemma {:induction false} IncludesAt(s: string, q: string, i: nat)
    requires OccursAt(s, q, i)
    ensures Includes(s, q)
    decreases i
  {
    if i == 0 {
      assert q <= s;
    } else {
      assert s[1..][i - 1..i - 1 + |q|] == s[i..i + |q|];
      IncludesAt(s[1..], q, i - 1);
    }
  }

  /** ... and only then. */
  lemma {:induction false} IncludesHasOffset(s: string, q: string)
    requires Includes(s, q)
    ensures exists i: nat :: OccursAt(s, q, i)
    decreases |s|
  {
    if q <= s {
      assert OccursAt(s, q, 0);
    } else {
      IncludesHasOffset(s[1..], q);
      var j: nat :| OccursAt(s[1..], q, j);
      assert s[1..][j..j + |q|] == s[j + 1..j + 1 + |q|];
      assert OccursAt(s, q, j + 1);
    }
  }
}
