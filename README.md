# JSON value model

A Dafny model of the in-memory JSON value of the `json` crate (`src/value.rs`):
a closed six-variant value (String, Number, Boolean, Null, Object, Array), its
variant predicates and checked coercions, structural equality (`is`), object
access (`put`, `get`, `get_mut`, the get-or-create `with`), array access
(`push`, `at`, `at_mut`), and the two indexing operators that never fail and
fall back to a shared `Null`.

Files and modules:

- `errors.dfy` — `JsonErrors`: the three error cases the value module raises
  (`WrongType(expected)`, `Undefined(key)`, `ArrayIndexOutOfBounds`) and a
  `Result` type.
- `value.dfy` — `JsonValue`: the `Value` datatype (objects are `map<string, Value>`,
  so keys are unique; arrays are `seq<Value>`), the pure operations, the
  derived equality `Equal` with the proof that it is exactly `==`, and the
  values `put`, `with` and `push` leave behind (`AfterPut`, `AfterWith`,
  `AfterPush`), each characterised through `Get`/`At`.
- `reference.dfy` — `JsonReference`: in-place mutation. A `Place` is the memory
  a `&mut JsonValue` points at; a mutable reference into it (what `get_mut`,
  `at_mut` and `with` return) is a `Path` of member keys and element indexes
  from the root. `Put`, `Push` and `With` are methods that mutate the value at
  a path; `Assign` is `*r = x` through a returned reference. `Follow` reads a
  path and `Store` writes through one; lemmas prove a write is then read back,
  writing back the current value changes nothing, and sibling members and
  other array elements are untouched.
- `properties.dfy` — `JsonProperties`: lemmas relating several operations
  (overwrite, key-order independence, `with` idempotence and its
  replace-on-wrong-type behaviour, push order, what indexing returns) and a
  client that builds `{"name": "Ada", "tags": ["x", "y"]}`.

The source defines coercions only for String, Number and Boolean
(`as_string`, `as_number`, `as_boolean`, src/value.rs:42-91); there is no
`as_null`, `as_object` or `as_array`, and the model has none either.

## Model

| member | source | states |
|---|---|---|
| JsonValue.NewObject | src/value.rs:20-22 | the result is an object on which every key lookup fails with `Undefined(key)` |
| JsonValue.NewArray | src/value.rs:26-28 | the result is an array on which every index is out of bounds |
| JsonValue.EqualIsStructural | src/value.rs:5-13 | the derived equality (same variant; objects with the same keys and equal members; arrays of equal length and equal elements, recursively) holds exactly when the two values are equal |
| JsonValue.Is | src/value.rs:31-33 | `is(other)` is true exactly when the value equals `other` |
| JsonValue.IsString | src/value.rs:35-40 | true exactly when the variant is String |
| JsonValue.AsString | src/value.rs:42-47 | succeeds exactly on a String and returns its text (the value is `String` of the result); otherwise fails with `WrongType("String")` |
| JsonValue.IsNumber | src/value.rs:49-54 | true exactly when the variant is Number |
| JsonValue.AsNumber | src/value.rs:56-61 | succeeds exactly on a Number and returns its payload; otherwise fails with `WrongType("Number")` |
| JsonValue.IsBoolean | src/value.rs:63-68 | true exactly when the variant is Boolean |
| JsonValue.IsTrue | src/value.rs:70-76 | true exactly when `as_boolean` yields true, i.e. exactly when the value `is(true)` |
| JsonValue.IsFalse | src/value.rs:78-84 | true exactly when `as_boolean` yields false, i.e. exactly when the value `is(false)` |
| JsonValue.AsBoolean | src/value.rs:86-91 | succeeds exactly on a Boolean and returns it; otherwise fails with `WrongType("Boolean")` |
| JsonValue.IsNull | src/value.rs:93-98 | true exactly when the variant is Null |
| JsonValue.IsObject | src/value.rs:100-105 | true exactly when the variant is Object |
| JsonValue.IsArray | src/value.rs:107-112 | true exactly when the variant is Array |
| JsonProperties.ExactlyOneKind | src/value.rs:35-112 | every value satisfies exactly one of the six variant predicates |
| JsonValue.AfterPut | src/value.rs:114-125 | on an object, `get(key)` then yields x and every other key reads as before; a non-object is left unchanged; the variant never changes |
| JsonReference.Place.Put | src/value.rs:116-125 | through reference `at`: `Ok` exactly on an object, else `WrongType("Object")` and the whole value unchanged; the value at `at` becomes `AfterPut` of the old one and nothing outside `at` changes |
| JsonValue.Get | src/value.rs:129-137 | on an object holding key, returns the member; on an object without it, `Undefined(key)`; on a non-object, `WrongType("Object")` |
| JsonReference.Place.GetMut | src/value.rs:141-149 | succeeds exactly when `get(key)` succeeds, returning a reference to the member at key that reads what `get` returns; otherwise fails with `get`'s error; nothing changes |
| JsonValue.AfterWith | src/value.rs:151-169 | afterwards the value is an object holding key; an object that had key is unchanged; one without gains `key -> Null` as by `put`; a non-object is replaced by a new object holding only `key -> Null` |
| JsonReference.Place.With | src/value.rs:155-169 | through reference `at`: the value there becomes `AfterWith` of the old one; the returned reference is the member at key, reading the old member if there was one and Null otherwise |
| JsonProperties.WithIdempotent | src/value.rs:155-169 | a second `with(key)` changes nothing |
| JsonProperties.WithDiscardsNonObject | src/value.rs:163-167 | on any two non-objects `with(key)` gives the same result, whose only member is `key -> Null` |
| JsonValue.AfterPush | src/value.rs:171-182 | on an array, the length grows by one, earlier elements keep their positions and x is last; a non-array is left unchanged |
| JsonReference.Place.Push | src/value.rs:173-182 | through reference `at`: `Ok` exactly on an array, else `WrongType("Array")` and the whole value unchanged; the value at `at` becomes `AfterPush` of the old one |
| JsonProperties.PushAllAppends | src/value.rs:173-182 | pushing a sequence of values one by one onto an array appends them, in order, after its elements |
| JsonValue.At | src/value.rs:186-197 | on an array with index below the length, returns that element; at or past the length, `ArrayIndexOutOfBounds`; on a non-array, `WrongType("Array")` |
| JsonProperties.PushAllOrder | src/value.rs:186-197 | after pushing xs onto an empty array, `at(i)` is `xs[i]` below the length and out of bounds at or past it |
| JsonReference.Place.AtMut | src/value.rs:201-212 | succeeds exactly when `at(index)` succeeds, returning a reference to the element at index that reads what `at` returns; otherwise fails with `at`'s error (`ArrayIndexOutOfBounds` or `WrongType("Array")`); nothing changes |
| JsonValue.IndexAt | src/value.rs:225-231 | `self[index]` is the element when `at(index)` succeeds and the shared Null otherwise |
| JsonProperties.IndexAtNonNull | src/value.rs:225-231 | a non-Null `self[index]` is exactly what `at(index)` returns |
| JsonProperties.IndexAtAfterPush | src/value.rs:215-231 | after `push(x)` on an array of length n, `self[n]` is x |
| JsonValue.GetOrNull | src/value.rs:225-249 | `unwrap_or(&NULL)`, the body of both indexing impls (lines 229 and 247): a successful lookup yields its value, any error yields the shared `static NULL` (src/value.rs:15), which is Null |
| JsonValue.IndexKey | src/value.rs:243-249 | `self[key]` is the member when `get(key)` succeeds and the shared Null otherwise |
| JsonProperties.IndexKeyNonNull | src/value.rs:243-249 | a non-Null `self[key]` is exactly what `get(key)` returns |
| JsonProperties.IndexKeyAfterPut | src/value.rs:233-249 | after `put(key, x)` on an object, `self[key]` is x |
| JsonProperties.IndexKeyCollapsesNull | src/value.rs:129-137 | `get` tells a member holding Null from a missing member, but `self[key]` reads Null for both |
| JsonProperties.ObjectExtensional | src/value.rs:11 | two objects on which every `get` agrees are equal, so an object is determined by its lookups alone |
| JsonProperties.PutOverwrites | src/value.rs:116-125 | putting one key twice equals putting only the second value |
| JsonProperties.PutCommutes | src/value.rs:31-33 | putting two distinct keys in either order gives values that `is` reports equal: member order plays no part |
| JsonReference.Place.Assign | src/value.rs:141-149 | writing x through a live reference makes that reference read x; the value becomes the old one with x stored at that path |
| JsonReference.FollowAppend | src/value.rs:141-149 | reaching a member through a reference and then one more key or index is the same as following the longer path |
| JsonReference.FollowStore | src/value.rs:155-169 | a value written through a live reference is what that reference then reads |
| JsonReference.StoreFollow | src/value.rs:116-125 | writing back the value a reference already reads leaves the whole value unchanged (the no-change failure paths of `put` and `push`) |
| JsonReference.StoreKeepsSibling | src/value.rs:141-169 | writing through a reference to one member, or to anything nested in it (as `put`, `push` or `with` through a reference from `get_mut` or `with` do), leaves every sibling member reading as before |
| JsonReference.StoreKeepsOtherElement | src/value.rs:201-212 | writing through a reference to one array element (what `at_mut` returns), or to anything nested in it, leaves every other element reading as before |
| JsonProperties.IsTrueNoteDisagrees | src/value.rs:70-76 | the replacement that `is_true`'s deprecation note recommends, `is(false)`, answers the opposite of `is_true` on every Boolean |
| JsonProperties.IsFalseNoteDisagrees | src/value.rs:78-84 | the replacement that `is_false`'s deprecation note recommends, `is(true)`, answers the opposite of `is_false` on every Boolean |
| JsonProperties.BuildProfile | src/value.rs:155-182 | building `{"name": "Ada", "tags": ["x", "y"]}` with put, with, an assignment and push gives `get("name") == "Ada"`, `get("tags")` then `at(1) == "y"`, and `get("missing")` fails with `Undefined` |

## Findings

| source | as written | input that shows it | evidently intended | confidence | as-written member | corrected member |
|---|---|---|---|---|---|---|
| src/value.rs:70 | the deprecation note of `is_true` says to use `v.is(false)` instead | `Boolean(true)`: `is_true` is true, `is(false)` is false | use `v.is(true)` instead, which agrees with `is_true` everywhere | high; not executed | JsonProperties.IsTrueNoteDisagrees | JsonValue.IsTrue |
| src/value.rs:78 | the deprecation note of `is_false` says to use `v.is(true)` instead | `Boolean(false)`: `is_false` is true, `is(true)` is false | use `v.is(false)` instead, which agrees with `is_false` everywhere | high; not executed | JsonProperties.IsFalseNoteDisagrees | JsonValue.IsFalse |

The code of `is_true` and `is_false` is right; only the two notes are swapped.
`IsTrue` and `IsFalse` model the code and prove it equals `is(true)` and
`is(false)` respectively, which is the replacement the notes evidently meant.

## Left out

- Numbers: the `f64` payload is carried as its 64-bit pattern and compared bit for bit. The source compares with `f64`'s equality, under which NaN differs from itself and 0.0 equals -0.0; the model does neither, and no numeric formatting or precision is modelled.
- JsonValue.Is: takes an already-built value; the generic `Into<JsonValue>` conversions of `is`, `put` and `push` are defined outside `src/value.rs` and are not part of this model, so neither are their conversion rules.
- Indexes are unbounded naturals rather than `usize`; the source cannot form a `Vec` longer than `usize` allows, so no case is lost.
- References: borrow and lifetime rules are not modelled. A mutable reference is a path from the root of a `Place`; the identity of the shared `static NULL` is not modelled, only that its value is Null.
- The crate-root definitions of `JsonError` and `JsonResult` (its helper constructors `wrong_type` and `undefined`) are not part of this model; only the three error cases used here are.
- `BTreeMap` key order and the derived `Debug` output: key order is not part of any contract here, so objects are Dafny maps.
- The `object!`/`array!` macros, parsing and serialisation belong to other files.
- The `#[must_use]` and `#[deprecated]` attributes have no counterpart in the model.
