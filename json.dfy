/**
 * JSON values as Express hands them to the application after body parsing,
 * with the few JavaScript operations the core applies to them: property
 * access, truthiness and `new Set(iterable)`.
 */
module Json {
  import opened Wrappers

  /** A parsed JSON value. Numbers are kept as integers; `undefined` is `None` around a Value. */
  datatype Value =
    | Null
    | Bool(b: bool)
    | Num(n: int)
    | Str(s: string)
    | Arr(items: seq<Value>)
    | Obj(fields: seq<Field>)

  /** One own property of an object, in enumeration order. */
  datatype Field = Field(key: string, value: Value)

  /** `obj[key]`: the value of the first field named `key`, or undefined. */
  function Get(fields: seq<Field>, key: string): Option<Value> {
    if |fields| == 0 then None
    else if fields[0].key == key then Some(fields[0].value)
    else Get(fields[1..], key)
  }

  /** A key is defined exactly when some field carries it, and then its value is that of such a field. */
  lemma {:induction false} GetFindsField(fields: seq<Field>, key: string)
    ensures Get(fields, key).Some? <==> exists i :: 0 <= i < |fields| && fields[i].key == key
    ensures Get(fields, key).Some? ==>
      exists i :: 0 <= i < |fields| && fields[i].key == key && fields[i].value == Get(fields, key).value
  {
    if |fields| > 0 && fields[0].key != key {
      GetFindsField(fields[1..], key);
      assert forall i :: 1 <= i < |fields| ==> fields[i] == fields[1..][i - 1];
      if Get(fields, key).Some? {
        var i :| 0 <= i < |fields[1..]| && fields[1..][i].key == key && fields[1..][i].value == Get(fields, key).value;
        assert fields[i + 1] == fields[1..][i];
      }
    }
  }

  /** The keys of an object, in enumeration order. */
  function Keys(fields: seq<Field>): (ks: seq<string>)
    ensures |ks| == |fields|
    ensures forall i :: 0 <= i < |fields| ==> ks[i] == fields[i].key
  {
    if |fields| == 0 then [] else [fields[0].key] + Keys(fields[1..])
  }

  /** `obj[key] = v`: overwrite the first field named `key` in place, or append a new one. */
  function SetField(fields: seq<Field>, key: string, v: Value): (r: seq<Field>)
    ensures Get(r, key) == Some(v)
    ensures forall k :: k != key ==> Get(r, k) == Get(fields, k)
  {
    if |fields| == 0 then [Field(key, v)]
    else if fields[0].key == key then [Field(key, v)] + fields[1..]
    else [fields[0]] + SetField(fields[1..], key, v)
  }

  /** Assigning a key the object does not have adds it after all the others. */
  lemma {:induction false} SetFieldAppends(fields: seq<Field>, key: string, v: Value)
    requires Get(fields, key).None?
    ensures SetField(fields, key, v) == fields + [Field(key, v)]
  {
    if |fields| > 0 {
      SetFieldAppends(fields[1..], key, v);
      assert [fields[0]] + (fields[1..] + [Field(key, v)]) == fields + [Field(key, v)];
    }
  }

  /** The fields an object literal `{key: v}` serialises to: none when `v` is undefined. */
  function Entry(key: string, v: Option<Value>): seq<Field> {
    if v.Some? then [Field(key, v.value)] else []
  }

  /** Reading from two field lists laid end to end: the first list wins. */
  lemma {:induction false} GetAppend(a: seq<Field>, b: seq<Field>, k: string)
    ensures Get(a + b, k) == if Get(a, k).Some? then Get(a, k) else Get(b, k)
  {
    if |a| == 0 {
      assert a + b == b;
    } else {
      assert (a + b)[0] == a[0];
      assert (a + b)[1..] == a[1..] + b;
      GetAppend(a[1..], b, k);
    }
  }

  lemma GetEntry(key: string, v: Option<Value>, k: string)
    ensures Get(Entry(key, v), k) == if key == k then v else None
  {
    if v.Some? {
      assert Entry(key, v)[1..] == [];
    }
  }

  /** JavaScript truthiness of a possibly undefined value: arrays and objects are always truthy. */
  predicate Truthy(v: Option<Value>) {
    match v
    case None => false
    case Some(Null) => false
    case Some(Bool(b)) => b
    case Some(Num(n)) => n != 0
    case Some(Str(s)) => s != ""
    case Some(Arr(_)) => true
    case Some(Obj(_)) => true
  }

  /** The runtime's error for reading a property of undefined or null. */
  function ReadOfNothing(what: string, key: string): string {
    "Cannot read properties of " + what + " (reading '" + key + "')"
  }

  /**
   * `v.key`: undefined and null throw a TypeError (given here by its message);
   * an object yields its field; every other value has no such own property.
   */
  function Prop(v: Option<Value>, key: string): (r: Result<Option<Value>, string>)
    ensures r.Err? <==> v.None? || v == Some(Null)
    ensures v.Some? && v.value.Obj? ==> r == Ok(Get(v.value.fields, key))
  {
    match v
    case None => Err(ReadOfNothing("undefined", key))
    case Some(Null) => Err(ReadOfNothing("null", key))
    case Some(Obj(fields)) => Ok(Get(fields, key))
    case Some(_) => Ok(None)
  }

  /** `v?.key`: optional chaining never throws. */
  function OptionalProp(v: Option<Value>, key: string): (r: Option<Value>)
    ensures Prop(v, key).Ok? ==> r == Prop(v, key).value
    ensures Prop(v, key).Err? ==> r.None?
  {
    match v
    case Some(Obj(fields)) => Get(fields, key)
    case _ => None
  }

  /** The elements `new Set(v)` holds, or None when `v` is not iterable (a TypeError). */
  function NewSet(v: Option<Value>): (r: Option<set<Value>>)
    ensures v.Some? && v.value.Arr? ==> r == Some(set x | x in v.value.items)
    ensures r.None? <==> v.Some? && !(v.value.Null? || v.value.Arr? || v.value.Str?)
  {
    match v
    case None => Some({})
    case Some(Null) => Some({})
    case Some(Arr(items)) => Some(set x | x in items)
    case Some(Str(s)) => Some(set c | c in s :: Str([c]))
    case Some(_) => None
  }

  /** The type name zod reports for a value it did not expect. */
  function TypeName(v: Value): string {
    match v
    case Null => "null"
    case Bool(_) => "boolean"
    case Num(_) => "number"
    case Str(_) => "string"
    case Arr(_) => "array"
    case Obj(_) => "object"
  }

  /** `JSON.stringify`-shaped array of strings. */
  function StrArray(ss: seq<string>): (r: Value)
    ensures r.Arr? && |r.items| == |ss|
    ensures forall i :: 0 <= i < |ss| ==> r.items[i] == Str(ss[i])
  {
    if |ss| == 0 then Arr([]) else Arr([Str(ss[0])] + StrArray(ss[1..]).items)
  }
}
