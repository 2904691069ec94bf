/**
 * The JavaScript values the expert-system API handles (request bodies,
 * stored models, session maps) and the few lodash and language operations
 * the validators and the session code apply to them.
 */
module JsValues {
  import opened Wrappers

  /**
   * A JSON-like JavaScript value. Numbers are integers; objects are lists
   * of key/value pairs in iteration order.
   */
  datatype Json =
    | Undefined
    | Null
    | Bool(b: bool)
    | Num(n: int)
    | Str(s: string)
    | Arr(elems: seq<Json>)
    | Obj(fields: seq<(string, Json)>)

  /** `_.isObject`: arrays and objects. */
  predicate IsObject(v: Json) { v.Obj? || v.Arr? }

  /** Truthiness: `undefined`, `null`, `false`, `0` and `""` are falsy. */
  predicate Truthy(v: Json)
  {
    match v
    case Undefined => false
    case Null => false
    case Bool(b) => b
    case Num(n) => n != 0
    case Str(s) => s != ""
    case _ => true
  }

  // ---------------------------------------------------------------------
  // Text conversion
  // ---------------------------------------------------------------------

  function DigitChar(d: nat): char
    requires d < 10
  {
    ('0' as int + d) as char
  }

  /** Decimal text of a natural number. */
  function NatText(n: nat): (r: string)
    ensures |r| > 0 && forall i | 0 <= i < |r| :: '0' <= r[i] <= '9'
  {
    if n < 10 then [DigitChar(n)] else NatText(n / 10) + [DigitChar(n % 10)]
  }

  /** `String(n)` of an integer. */
  function IntText(n: int): string
  {
    if n < 0 then "-" + NatText(-n) else NatText(n)
  }

  /** Comma-separated concatenation, as `Array.prototype.join` does. */
  function Join(parts: seq<string>): string
  {
    if |parts| == 0 then ""
    else if |parts| == 1 then parts[0]
    else Join(parts[..|parts| - 1]) + "," + parts[|parts| - 1]
  }

  /**
   * `String(v)`, which is also how a value becomes a property key: an array
   * joins its elements (null and undefined become empty), a plain object
   * is `[object Object]`.
   */
  function ToText(v: Json): string
  {
    match v
    case Undefined => "undefined"
    case Null => "null"
    case Bool(b) => if b then "true" else "false"
    case Num(n) => IntText(n)
    case Str(s) => s
    case Arr(elems) =>
      Join(seq(|elems|, i requires 0 <= i < |elems| =>
        if elems[i].Null? || elems[i].Undefined? then "" else ToText(elems[i])))
    case Obj(_) => "[object Object]"
  }

  /**
   * Loose equality `v == t` of a value against a text: a string compares
   * by content, a number equals its own decimal text (`5 == "5"`), a
   * boolean equals `"1"` or `"0"`, an array or object compares by its text,
   * and null and undefined equal no text.
   */
  predicate LooselyEquals(v: Json, t: string)
  {
    match v
    case Str(s) => s == t
    case Num(n) => IntText(n) == t
    case Bool(b) => t == (if b then "1" else "0")
    case Arr(_) => ToText(v) == t
    case Obj(_) => ToText(v) == t
    case _ => false
  }

  /**
   * A string, a number, an array or an object is loosely equal to a text
   * exactly when that text is its own text, the key it is stored under as
   * a property name.
   */
  lemma LooselyEqualsText(v: Json, t: string)
    requires v.Str? || v.Num? || v.Arr? || v.Obj?
    ensures LooselyEquals(v, t) <==> ToText(v) == t
  {
  }

  // ---------------------------------------------------------------------
  // Properties
  // ---------------------------------------------------------------------

  /**
   * The own enumerable properties in iteration order, as `Object.keys`,
   * `_.forOwn` and the two-argument `_.forEach` callback see them: an
   * array or a string lists its indices.
   */
  function OwnEntries(v: Json): (r: seq<(string, Json)>)
    ensures v.Arr? ==> |r| == |v.elems|
    ensures v.Str? ==> |r| == |v.s|
    ensures !IsObject(v) && !v.Str? ==> r == []
  {
    match v
    case Obj(fields) => fields
    case Arr(elems) => seq(|elems|, i requires 0 <= i < |elems| => (NatText(i), elems[i]))
    case Str(s) => seq(|s|, i requires 0 <= i < |s| => (NatText(i), Str([s[i]])))
    case _ => []
  }

  /** The values a one-argument `_.forEach` visits: array elements, object values, string characters; nothing otherwise. */
  function Elements(v: Json): (r: seq<Json>)
    ensures v.Arr? ==> r == v.elems
    ensures |r| == |OwnEntries(v)|
    ensures forall i | 0 <= i < |r| :: r[i] == OwnEntries(v)[i].1
  {
    var entries := OwnEntries(v);
    seq(|entries|, i requires 0 <= i < |entries| => entries[i].1)
  }

  /** The value of the entry with key `key` that comes first, or undefined. */
  function Lookup(entries: seq<(string, Json)>, key: string): Json
  {
    if |entries| == 0 then Undefined
    else if entries[0].0 == key then entries[0].1
    else Lookup(entries[1..], key)
  }

  /** Lookup finds the first entry with the key, and gives undefined when no entry has it. */
  lemma {:induction false} LookupFirst(entries: seq<(string, Json)>, key: string)
    ensures forall i | 0 <= i < |entries| && entries[i].0 == key && (forall j | 0 <= j < i :: entries[j].0 != key) ::
      Lookup(entries, key) == entries[i].1
    ensures (forall i | 0 <= i < |entries| :: entries[i].0 != key) ==> Lookup(entries, key) == Undefined
  {
    if |entries| > 0 && entries[0].0 != key {
      LookupFirst(entries[1..], key);
      assert forall i | 1 <= i < |entries| :: entries[i] == entries[1..][i - 1];
      forall i | 1 <= i < |entries| && entries[i].0 == key && (forall j | 0 <= j < i :: entries[j].0 != key)
        ensures Lookup(entries, key) == entries[i].1
      {
        assert forall j | 0 <= j < i - 1 :: entries[1..][j] == entries[j + 1];
      }
    }
  }

  /**
   * `v[key]` on a value that is neither null nor undefined: `length` of an
   * array or string, an own property, or undefined.
   */
  function Get(v: Json, key: string): Json
  {
    if key == "length" && v.Arr? then Num(|v.elems|)
    else if key == "length" && v.Str? then Num(|v.s|)
    else Lookup(OwnEntries(v), key)
  }

  /** `v[key]` on any value: reading a property of null or undefined throws a TypeError. */
  function Member(v: Json, key: string): (r: Completion<Json>)
    ensures r.Thrown? <==> v.Null? || v.Undefined?
    ensures r.Normal? ==> r.value == Get(v, key)
  {
    if v.Null? || v.Undefined? then Thrown("TypeError") else Normal(Get(v, key))
  }

  /** `o[key] = x` on an object: overwrites the first entry with that key in place, or appends one. */
  function Put(fields: seq<(string, Json)>, key: string, x: Json): (r: seq<(string, Json)>)
    ensures |r| == |fields| || |r| == |fields| + 1
    ensures forall i | 0 <= i < |fields| :: r[i].0 == fields[i].0
  {
    if |fields| == 0 then [(key, x)]
    else if fields[0].0 == key then [(key, x)] + fields[1..]
    else [fields[0]] + Put(fields[1..], key, x)
  }

  /** After `o[key] = x`, reading `key` gives `x` and every other key reads as before. */
  lemma {:induction false} LookupPut(fields: seq<(string, Json)>, key: string, x: Json, other: string)
    ensures Lookup(Put(fields, key, x), other) == if other == key then x else Lookup(fields, other)
  {
    if |fields| > 0 && fields[0].0 != key {
      LookupPut(fields[1..], key, x, other);
      var r := Put(fields, key, x);
      assert r[1..] == Put(fields[1..], key, x);
    }
  }

  /**
   * `index[e[field]] = e` for every element in turn: each element under
   * the text of its `field`, a later element replacing an earlier one with
   * the same text; reading the field of a null or undefined element throws.
   */
  function IndexBy(elems: seq<Json>, field: string): Completion<map<string, Json>>
  {
    if |elems| == 0 then Normal(map[])
    else
      match IndexBy(elems[..|elems| - 1], field)
      case Thrown(e) => Thrown(e)
      case Normal(m) =>
        match Member(elems[|elems| - 1], field)
        case Thrown(e) => Thrown(e)
        case Normal(key) => Normal(m[ToText(key) := elems[|elems| - 1]])
  }

  /** Indexing throws a TypeError exactly when some element is null or undefined. */
  lemma {:induction false} IndexByThrows(elems: seq<Json>, field: string)
    ensures IndexBy(elems, field).Thrown? <==> exists i | 0 <= i < |elems| :: elems[i].Null? || elems[i].Undefined?
    ensures IndexBy(elems, field).Thrown? ==> IndexBy(elems, field).error == "TypeError"
  {
    if |elems| > 0 {
      var init := elems[..|elems| - 1];
      IndexByThrows(init, field);
      assert forall i | 0 <= i < |elems| - 1 :: elems[i] == init[i];
    }
  }

  /** The keys of a finished index are exactly the texts of the elements' fields. */
  lemma {:induction false} IndexByKeys(elems: seq<Json>, field: string)
    requires IndexBy(elems, field).Normal?
    ensures forall k :: k in IndexBy(elems, field).value <==> exists i | 0 <= i < |elems| :: ToText(Get(elems[i], field)) == k
  {
    if |elems| > 0 {
      var init := elems[..|elems| - 1];
      IndexByKeys(init, field);
      assert forall i | 0 <= i < |elems| - 1 :: elems[i] == init[i];
    }
  }

  /** Each key of a finished index holds the last element whose field has that text. */
  lemma {:induction false} IndexByLastWins(elems: seq<Json>, field: string, i: int)
    requires IndexBy(elems, field).Normal?
    requires 0 <= i < |elems|
    requires forall j | i < j < |elems| :: ToText(Get(elems[j], field)) != ToText(Get(elems[i], field))
    ensures ToText(Get(elems[i], field)) in IndexBy(elems, field).value
    ensures IndexBy(elems, field).value[ToText(Get(elems[i], field))] == elems[i]
  {
    var init := elems[..|elems| - 1];
    if i < |elems| - 1 {
      assert forall j | 0 <= j < |elems| - 1 :: elems[j] == init[j];
      IndexByLastWins(init, field, i);
    }
  }

  /**
   * The `_.forEach` loop that indexes elements by a field, one element at
   * a time, as both the object validator and `/init` run it.
   */
  method IndexElements(elems: seq<Json>, field: string) returns (r: Completion<map<string, Json>>)
    ensures r == IndexBy(elems, field)
  {
    var index: map<string, Json> := map[];
    var i := 0;
    while i < |elems|
      invariant 0 <= i <= |elems|
      invariant IndexBy(elems[..i], field) == Normal(index)
    {
      if elems[i].Null? || elems[i].Undefined? {
        IndexByThrows(elems, field);
        return Thrown("TypeError");
      }
      assert elems[..i + 1][..i] == elems[..i];
      index := index[ToText(Get(elems[i], field)) := elems[i]];
      i := i + 1;
    }
    assert elems[..i] == elems;
    return Normal(index);
  }

  // ---------------------------------------------------------------------
  // lodash predicates
  // ---------------------------------------------------------------------

  /**
   * `_.isEmpty`: an array or string of length zero, an object without own
   * keys, and every number, boolean, null and undefined.
   */
  predicate IsEmpty(v: Json)
  {
    |OwnEntries(v)| == 0
  }

  /**
   * SameValueZero between a stored value and a value parsed from a request:
   * primitives compare by value, while an array or object parsed from the
   * request is never the same object as a stored one.
   */
  predicate SameValueZero(stored: Json, given: Json)
  {
    !IsObject(given) && stored == given
  }

  /** `t` occurs in `s` starting at index `i`. */
  predicate OccursAt(t: string, s: string, i: nat)
  {
    i + |t| <= |s| && s[i..i + |t|] == t
  }

  /** `s.indexOf(t) > -1`: `t` occurs in `s` as a contiguous substring. */
  predicate IsSubstring(t: string, s: string)
  {
    exists i: nat | i <= |s| :: OccursAt(t, s, i)
  }

  /**
   * `_.includes(collection, value)`: an element of an array, a property
   * value of an object, or a substring of a string (after converting
   * `value` to text); nothing is included in any other value.
   */
  predicate Includes(collection: Json, value: Json)
  {
    match collection
    case Arr(elems) => exists i | 0 <= i < |elems| :: SameValueZero(elems[i], value)
    case Obj(fields) => exists i | 0 <= i < |fields| :: SameValueZero(fields[i].1, value)
    case Str(s) => IsSubstring(ToText(value), s)
    case _ => false
  }
}
