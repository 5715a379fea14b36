/**
 * Properties that relate several operations on JSON values: the variant
 * predicates partition the values, put/get and push/at round-trip, with is
 * idempotent, indexing collapses every failure into Null, and a short
 * client that builds a nested value through mutable references.
 */
module JsonProperties {
  import opened JsonErrors
  import opened JsonValue
  import opened JsonReference

  /** Every value satisfies exactly one of the six variant predicates. */
  lemma ExactlyOneKind(v: Value)
    ensures (if IsString(v) then 1 else 0) + (if IsNumber(v) then 1 else 0)
          + (if IsBoolean(v) then 1 else 0) + (if IsNull(v) then 1 else 0)
          + (if IsObject(v) then 1 else 0) + (if IsArray(v) then 1 else 0) == 1
  {
  }

  /** Two objects that answer every Get alike are the same value. */
  lemma ObjectExtensional(a: Value, b: Value)
    requires IsObject(a) && IsObject(b)
    requires forall key :: Get(a, key) == Get(b, key)
    ensures a == b
  {
    forall key | key in a.members
      ensures key in b.members && a.members[key] == b.members[key]
    {
      assert Get(a, key) == Get(b, key);
    }
    forall key | key in b.members
      ensures key in a.members
    {
      assert Get(a, key) == Get(b, key);
    }
    assert a.members == b.members;
  }

  /** Putting the same key twice leaves one member, holding the second value. */
  lemma PutOverwrites(v: Value, key: string, x: Value, y: Value)
    requires IsObject(v)
    ensures AfterPut(AfterPut(v, key, x), key, y) == AfterPut(v, key, y)
  {
  }

  /** Member order does not matter: putting two distinct keys in either order gives equal values. */
  lemma PutCommutes(v: Value, k1: string, x1: Value, k2: string, x2: Value)
    requires IsObject(v) && k1 != k2
    ensures Is(AfterPut(AfterPut(v, k1, x1), k2, x2), AfterPut(AfterPut(v, k2, x2), k1, x1))
  {
  }

  /** Calling with twice on the same key changes nothing the second time. */
  lemma WithIdempotent(v: Value, key: string)
    ensures AfterWith(AfterWith(v, key), key) == AfterWith(v, key)
  {
  }

  /** with on a non-object discards it: whatever it held, the result is the same one-member object. */
  lemma WithDiscardsNonObject(v: Value, w: Value, key: string)
    requires !IsObject(v) && !IsObject(w)
    ensures AfterWith(v, key) == AfterWith(w, key)
    ensures IndexKey(AfterWith(v, key), key) == NULL
    ensures forall k :: k != key ==> Get(AfterWith(v, key), k) == Err(Undefined(k))
  {
  }

  /** Pushing the values xs one by one, in order. */
  function PushAll(v: Value, xs: seq<Value>): Value
    decreases |xs|
  {
    if xs == [] then v else PushAll(AfterPush(v, xs[0]), xs[1..])
  }

  /** Pushing xs one by one onto an array appends them in order after its elements. */
  lemma {:induction false} PushAllAppends(v: Value, xs: seq<Value>)
    requires IsArray(v)
    ensures PushAll(v, xs) == Array(v.elements + xs)
    decreases |xs|
  {
    if xs == [] {
      assert v.elements + xs == v.elements;
    } else {
      PushAllAppends(AfterPush(v, xs[0]), xs[1..]);
      assert (v.elements + [xs[0]]) + xs[1..] == v.elements + xs;
    }
  }

  /** After pushing xs onto an empty array, position i holds xs[i] and position |xs| is out of bounds. */
  lemma PushAllOrder(xs: seq<Value>, i: nat)
    ensures i < |xs| ==> At(PushAll(NewArray(), xs), i) == Ok(xs[i])
    ensures i >= |xs| ==> At(PushAll(NewArray(), xs), i) == Err(ArrayIndexOutOfBounds)
  {
    PushAllAppends(NewArray(), xs);
    assert [] + xs == xs;
  }

  /** `object.put(key, x)` makes `object[key]` hold x. */
  lemma IndexKeyAfterPut(v: Value, key: string, x: Value)
    requires IsObject(v)
    ensures Is(IndexKey(AfterPut(v, key, x), key), x)
  {
  }

  /** `array.push(x)` makes `array[n]` hold x, where n was the length before. */
  lemma IndexAtAfterPush(v: Value, x: Value)
    requires IsArray(v)
    ensures Is(IndexAt(AfterPush(v, x), |v.elements|), x)
  {
  }

  /** A non-Null read through `self[key]` is exactly what Get returns. */
  lemma IndexKeyNonNull(v: Value, key: string)
    requires IndexKey(v, key) != NULL
    ensures Get(v, key) == Ok(IndexKey(v, key))
  {
  }

  /** A non-Null read through `self[index]` is exactly what At returns. */
  lemma IndexAtNonNull(v: Value, index: nat)
    requires IndexAt(v, index) != NULL
    ensures At(v, index) == Ok(IndexAt(v, index))
  {
  }

  /**
   * Get tells a member holding Null from a missing one; `self[key]` does not:
   * both read as Null.
   */
  lemma IndexKeyCollapsesNull(m: map<string, Value>, key: string)
    ensures Get(Object(m[key := Null]), key) != Get(Object(m - {key}), key)
    ensures IndexKey(Object(m[key := Null]), key) == IndexKey(Object(m - {key}), key) == NULL
  {
  }

  /**
   * The deprecation note of `is_true` recommends `v.is(false)`: on every
   * Boolean that replacement answers the opposite of `is_true`.
   */
  lemma IsTrueNoteDisagrees(b: bool)
    ensures IsTrue(Boolean(b)) != Is(Boolean(b), Boolean(false))
  {
  }

  /**
   * The deprecation note of `is_false` recommends `v.is(true)`: on every
   * Boolean that replacement answers the opposite of `is_false`.
   */
  lemma IsFalseNoteDisagrees(b: bool)
    ensures IsFalse(Boolean(b)) != Is(Boolean(b), Boolean(true))
  {
  }

  /**
   * A client: build {"name": "Ada", "tags": ["x", "y"]} through put, with,
   * an assignment through the reference with returns, and push.
   */
  method BuildProfile() returns (v: Value)
    ensures Get(v, "name") == Ok(String("Ada"))
    ensures Get(v, "tags").Ok? && At(Get(v, "tags").value, 1) == Ok(String("y"))
    ensures Get(v, "missing") == Err(Undefined("missing"))
  {
    var place := new Place(NewObject());
    var ok := place.Put([], "name", String("Ada"));
    var tags := place.With([], "tags");
    place.Assign(tags, NewArray());
    ok := place.Push(tags, String("x"));
    ok := place.Push(tags, String("y"));
    v := place.value;
  }
}
