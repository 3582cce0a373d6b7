/**
 * JSON values as the host's persistence primitives hand them back, and the
 * small part of JavaScript's object semantics the settings layer relies on:
 * `typeof`, truthiness, property reads and object spread (`{...v}`).
 */
module Json {
  import opened Wrappers

  /** A JSON value. Numbers are modelled as integers. */
  datatype Value =
    | Null
    | Bool(b: bool)
    | Num(n: int)
    | Str(s: string)
    | Arr(items: seq<Value>)
    | Obj(fields: map<string, Value>)

  /** JavaScript's `typeof` on a JSON value (`null` and arrays report "object"). */
  function TypeOf(v: Value): string
  {
    match v
    case Null => "object"
    case Bool(_) => "boolean"
    case Num(_) => "number"
    case Str(_) => "string"
    case Arr(_) => "object"
    case Obj(_) => "object"
  }

  /** JavaScript truthiness, as used by `a && b`. */
  predicate Truthy(v: Value)
  {
    match v
    case Null => false
    case Bool(b) => b
    case Num(n) => n != 0
    case Str(s) => s != ""
    case Arr(_) => true
    case Obj(_) => true
  }

  /** The character for a decimal digit. */
  function Digit(d: nat): (c: char)
    requires d < 10
    ensures '0' <= c <= '9'
  {
    ('0' as int + d) as char
  }

  /** Canonical decimal rendering of a natural number: the property key of an array index. */
  function IndexKey(n: nat): (r: string)
    ensures |r| >= 1
    ensures (|r| == 1) == (n < 10)
    ensures r[|r| - 1] == Digit(n % 10)
  {
    if n < 10 then [Digit(n)] else IndexKey(n / 10) + [Digit(n % 10)]
  }

  /** Different indices have different property keys. */
  lemma {:induction false} IndexKeyInjective(a: nat, b: nat)
    requires IndexKey(a) == IndexKey(b)
    ensures a == b
    decreases a
  {
    var ka, kb := IndexKey(a), IndexKey(b);
    assert a % 10 == b % 10 by {
      assert Digit(a % 10) == ka[|ka| - 1] == kb[|kb| - 1] == Digit(b % 10);
    }
    if a >= 10 {
      assert b >= 10;
      assert IndexKey(a / 10) == ka[..|ka| - 1] == kb[..|kb| - 1] == IndexKey(b / 10);
      IndexKeyInjective(a / 10, b / 10);
    }
  }

  /** The own enumerable properties of an array-like sequence: key "i" holds element i. */
  function Indexed(vs: seq<Value>): (r: map<string, Value>)
    ensures forall i :: 0 <= i < |vs| ==> IndexKey(i) in r && r[IndexKey(i)] == vs[i]
    ensures forall k :: k in r ==> exists i :: 0 <= i < |vs| && k == IndexKey(i)
  {
    assert forall i, j :: 0 <= i < |vs| && 0 <= j < |vs| && IndexKey(i) == IndexKey(j) ==> vs[i] == vs[j] by {
      forall i, j | 0 <= i < |vs| && 0 <= j < |vs| && IndexKey(i) == IndexKey(j)
        ensures vs[i] == vs[j]
      {
        IndexKeyInjective(i, j);
      }
    }
    map i | 0 <= i < |vs| :: IndexKey(i) := vs[i]
  }

  /** One-character strings, the elements a string spreads into. */
  function Chars(s: string): (cs: seq<Value>)
    ensures |cs| == |s|
    ensures forall i :: 0 <= i < |s| ==> cs[i] == Str([s[i]])
  {
    seq(|s|, i requires 0 <= i < |s| => Str([s[i]]))
  }

  /**
   * The entries `{...v}` copies: the fields of an object, the indexed
   * elements of an array or string, and nothing for `null`, booleans
   * and numbers.
   */
  function OwnEntries(v: Value): (r: map<string, Value>)
    ensures v.Obj? ==> r == v.fields
    ensures v.Null? || v.Bool? || v.Num? ==> r == map[]
    ensures v.Arr? ==> r == Indexed(v.items)
    ensures v.Str? ==> r == Indexed(Chars(v.s))
  {
    match v
    case Obj(fields) => fields
    case Arr(items) => Indexed(items)
    case Str(s) => Indexed(Chars(s))
    case _ => map[]
  }

  /** Reading property `key` of a value (`v.key`), over own entries only. */
  function Field(v: Value, key: string): (r: Option<Value>)
    ensures r.Some? <==> key in OwnEntries(v)
    ensures r.Some? ==> r.value == OwnEntries(v)[key]
  {
    var entries := OwnEntries(v);
    if key in entries then Some(entries[key]) else None
  }

  /** `{...data}` where `data` may be `undefined` (None), which spreads to nothing. */
  function Spread(data: Option<Value>): (r: map<string, Value>)
    ensures data.None? ==> r == map[]
    ensures data.Some? ==> r == OwnEntries(data.value)
  {
    match data
    case None => map[]
    case Some(v) => OwnEntries(v)
  }
}
