/**
 * The JSON value type and its pure operations: variant predicates, checked
 * coercions, structural equality, object lookup by key, array lookup by index,
 * the two non-failing indexing operators, and the value that `put`, `push`
 * and `with` leave behind.
 */
module JsonValue {
  import opened JsonErrors

  /** A 64-bit float payload, carried as its IEEE-754 bit pattern and never computed with. */
  datatype F64 = F64(bits: bv64)

  /** A JSON value: exactly one of six variants. Object keys are unique because members is a map. */
  datatype Value =
    | String(text: string)
    | Number(number: F64)
    | Boolean(truth: bool)
    | Null
    | Object(members: map<string, Value>)
    | Array(elements: seq<Value>)

  /** The shared Null the indexing operators fall back to. */
  const NULL: Value := Null

  // ---------------------------------------------------------------------------
  // Construction

  /** An empty object: it is an object, and every key lookup fails as undefined. */
  function NewObject(): (r: Value)
    ensures IsObject(r)
    ensures forall key :: Get(r, key) == Err(Undefined(key))
  {
    Object(map[])
  }

  /** An empty array: it is an array, and every index is out of bounds. */
  function NewArray(): (r: Value)
    ensures IsArray(r)
    ensures forall i: nat :: At(r, i) == Err(ArrayIndexOutOfBounds)
  {
    Array([])
  }

  // ---------------------------------------------------------------------------
  // Variant predicates

  function IsString(v: Value): (r: bool)
    ensures r <==> v.String?
  {
    match v
    case String(_) => true
    case _ => false
  }

  function IsNumber(v: Value): (r: bool)
    ensures r <==> v.Number?
  {
    match v
    case Number(_) => true
    case _ => false
  }

  function IsBoolean(v: Value): (r: bool)
    ensures r <==> v.Boolean?
  {
    match v
    case Boolean(_) => true
    case _ => false
  }

  /**
   * Holds only of Boolean(true). Deprecated; the deprecation note recommends
   * `v.is(false)` instead, which answers the opposite on every Boolean.
   */
  function IsTrue(v: Value): (r: bool)
    ensures r <==> AsBoolean(v) == Ok(true)
    ensures r <==> Is(v, Boolean(true))
  {
    match v
    case Boolean(true) => true
    case _ => false
  }

  /**
   * Holds only of Boolean(false). Deprecated; the deprecation note recommends
   * `v.is(true)` instead, which answers the opposite on every Boolean.
   */
  function IsFalse(v: Value): (r: bool)
    ensures r <==> AsBoolean(v) == Ok(false)
    ensures r <==> Is(v, Boolean(false))
  {
    match v
    case Boolean(false) => true
    case _ => false
  }

  function IsNull(v: Value): (r: bool)
    ensures r <==> v.Null?
  {
    match v
    case Null => true
    case _ => false
  }

  function IsObject(v: Value): (r: bool)
    ensures r <==> v.Object?
  {
    match v
    case Object(_) => true
    case _ => false
  }

  function IsArray(v: Value): (r: bool)
    ensures r <==> v.Array?
  {
    match v
    case Array(_) => true
    case _ => false
  }

  // ---------------------------------------------------------------------------
  // Checked coercions

  /** The text of a String; any other variant is the wrong type. */
  function AsString(v: Value): (r: Result<string>)
    ensures r.Ok? <==> IsString(v)
    ensures r.Ok? ==> v == String(r.value)
    ensures r.Err? ==> r.error == WrongType("String")
  {
    match v
    case String(s) => Ok(s)
    case _ => Err(WrongType("String"))
  }

  /** The payload of a Number; any other variant is the wrong type. */
  function AsNumber(v: Value): (r: Result<F64>)
    ensures r.Ok? <==> IsNumber(v)
    ensures r.Ok? ==> v == Number(r.value)
    ensures r.Err? ==> r.error == WrongType("Number")
  {
    match v
    case Number(n) => Ok(n)
    case _ => Err(WrongType("Number"))
  }

  /** The truth value of a Boolean; any other variant is the wrong type. */
  function AsBoolean(v: Value): (r: Result<bool>)
    ensures r.Ok? <==> IsBoolean(v)
    ensures r.Ok? ==> v == Boolean(r.value)
    ensures r.Err? ==> r.error == WrongType("Boolean")
  {
    match v
    case Boolean(b) => Ok(b)
    case _ => Err(WrongType("Boolean"))
  }

  // ---------------------------------------------------------------------------
  // Structural equality

  /**
   * The equality the source derives for its value type: same variant, equal
   * payloads, objects with the same keys and equal members key by key, arrays
   * of the same length and equal elements position by position.
   */
  function Equal(a: Value, b: Value): bool
  {
    match (a, b)
    case (String(s), String(t)) => s == t
    case (Number(m), Number(n)) => m == n
    case (Boolean(p), Boolean(q)) => p == q
    case (Null, Null) => true
    case (Object(m), Object(n)) =>
      m.Keys == n.Keys && forall key :: key in m ==> Equal(m[key], n[key])
    case (Array(s), Array(t)) =>
      |s| == |t| && forall i :: 0 <= i < |s| ==> Equal(s[i], t[i])
    case _ => false
  }

  /** The derived equality is exactly equality of values. */
  lemma {:induction false} EqualIsStructural(a: Value, b: Value)
    ensures Equal(a, b) <==> a == b
  {
    match (a, b)
    case (Object(m), Object(n)) =>
      forall key | key in m && key in n
        ensures Equal(m[key], n[key]) <==> m[key] == n[key]
      {
        EqualIsStructural(m[key], n[key]);
      }
      if Equal(a, b) {
        assert m == n;
      }
    case (Array(s), Array(t)) =>
      forall i | 0 <= i < |s| && 0 <= i < |t|
        ensures Equal(s[i], t[i]) <==> s[i] == t[i]
      {
        EqualIsStructural(s[i], t[i]);
      }
      if Equal(a, b) {
        assert s == t;
      }
    case _ =>
  }

  /** `v.is(other)`: does v hold exactly the value other? */
  function Is(v: Value, other: Value): (r: bool)
    ensures r <==> v == other
  {
    EqualIsStructural(v, other);
    Equal(v, other)
  }

  // ---------------------------------------------------------------------------
  // Object access

  /** The member of an object at key. */
  function Get(v: Value, key: string): (r: Result<Value>)
    ensures r.Ok? <==> IsObject(v) && key in v.members
    ensures r.Ok? ==> r.value == v.members[key]
    ensures !IsObject(v) ==> r == Err(WrongType("Object"))
    ensures IsObject(v) && key !in v.members ==> r == Err(Undefined(key))
  {
    match v
    case Object(m) => if key in m then Ok(m[key]) else Err(Undefined(key))
    case _ => Err(WrongType("Object"))
  }

  /** `self[key]`: the member at key, or the shared Null whenever Get fails. */
  function IndexKey(v: Value, key: string): (r: Value)
    ensures Get(v, key).Ok? ==> r == Get(v, key).value
    ensures Get(v, key).Err? ==> r == NULL
  {
    GetOrNull(Get(v, key))
  }

  /**
   * What `put(key, x)` leaves behind: an object gains or overwrites the member
   * at key and keeps every other member; any other variant is left as it was.
   */
  function AfterPut(v: Value, key: string, x: Value): (r: Value)
    ensures IsObject(r) <==> IsObject(v)
    ensures IsObject(v) ==> Get(r, key) == Ok(x)
    ensures IsObject(v) ==> forall k :: k != key ==> Get(r, k) == Get(v, k)
    ensures !IsObject(v) ==> r == v
  {
    match v
    case Object(m) => Object(m[key := x])
    case _ => v
  }

  /**
   * What `with(key)` leaves behind: an object that already has key is left as
   * it was; an object without it gains key -> Null; any other variant is
   * discarded and replaced by a fresh object holding only key -> Null.
   * Afterwards the value is an object that has key.
   */
  function AfterWith(v: Value, key: string): (r: Value)
    ensures IsObject(r) && Get(r, key).Ok?
    ensures IsObject(v) && Get(v, key).Ok? ==> r == v
    ensures IsObject(v) && Get(v, key).Err? ==> r == AfterPut(v, key, Null)
    ensures !IsObject(v) ==> r == AfterPut(NewObject(), key, Null)
  {
    match v
    case Object(m) => if key in m then v else Object(m[key := Null])
    case _ => Object(map[key := Null])
  }

  // ---------------------------------------------------------------------------
  // Array access

  /** The element of an array at position index. */
  function At(v: Value, index: nat): (r: Result<Value>)
    ensures r.Ok? <==> IsArray(v) && index < |v.elements|
    ensures r.Ok? ==> r.value == v.elements[index]
    ensures !IsArray(v) ==> r == Err(WrongType("Array"))
    ensures IsArray(v) && index >= |v.elements| ==> r == Err(ArrayIndexOutOfBounds)
  {
    match v
    case Array(s) => if index < |s| then Ok(s[index]) else Err(ArrayIndexOutOfBounds)
    case _ => Err(WrongType("Array"))
  }

  /** `self[index]`: the element at index, or the shared Null whenever At fails. */
  function IndexAt(v: Value, index: nat): (r: Value)
    ensures At(v, index).Ok? ==> r == At(v, index).value
    ensures At(v, index).Err? ==> r == NULL
  {
    GetOrNull(At(v, index))
  }

  /**
   * What `push(x)` leaves behind: an array grows by one, keeps every earlier
   * element at its position and has x last; any other variant is left as it was.
   */
  function AfterPush(v: Value, x: Value): (r: Value)
    ensures IsArray(r) <==> IsArray(v)
    ensures IsArray(v) ==> |r.elements| == |v.elements| + 1 && At(r, |v.elements|) == Ok(x)
    ensures IsArray(v) ==> forall i: nat :: i < |v.elements| ==> At(r, i) == At(v, i)
    ensures !IsArray(v) ==> r == v
  {
    match v
    case Array(s) => Array(s + [x])
    case _ => v
  }

  /** `unwrap_or(&NULL)` on a lookup result: the value found, or the shared Null on any error. */
  function GetOrNull(r: Result<Value>): (x: Value)
    ensures r.Ok? ==> x == r.value
    ensures r.Err? ==> x == NULL
  {
    match r
    case Ok(x) => x
    case Err(_) => NULL
  }
}
