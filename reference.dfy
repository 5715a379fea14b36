/**
 * In-place mutation of a JSON value. The value lives in a Place (the memory a
 * `&mut JsonValue` points at); a mutable reference into it, as `get_mut`,
 * `at_mut` and `with` hand out, is a Path of member keys and element indexes
 * from the Place's root. Every mutating operation is called through such a
 * path (the empty path is the root itself).
 */
module JsonReference {
  import opened JsonErrors
  import opened JsonValue

  /** One step from a composite value to one of its children. */
  datatype Step = Member(key: string) | Element(index: nat)

  type Path = seq<Step>

  /** Enter one child: an object member via Get, an array element via At. */
  function Enter(v: Value, s: Step): Result<Value>
  {
    match s
    case Member(key) => Get(v, key)
    case Element(index) => At(v, index)
  }

  /** The value a path leads to, or the first error met on the way. */
  function Follow(v: Value, p: Path): (r: Result<Value>)
    decreases |p|
  {
    if p == [] then Ok(v)
    else
      match Enter(v, p[0])
      case Ok(child) => Follow(child, p[1..])
      case Err(e) => Err(e)
  }

  /** The value v becomes when x is written at the end of the live path p. */
  function Store(v: Value, p: Path, x: Value): Value
    requires Follow(v, p).Ok?
    decreases |p|
  {
    if p == [] then x
    else
      match p[0]
      case Member(key) => Object(v.members[key := Store(v.members[key], p[1..], x)])
      case Element(index) => Array(v.elements[index := Store(v.elements[index], p[1..], x)])
  }

  /** Following a path one step longer is following the path, then entering one child. */
  lemma {:induction false} FollowAppend(v: Value, p: Path, s: Step)
    ensures Follow(v, p + [s]) == match Follow(v, p) case Ok(w) => Enter(w, s) case Err(e) => Err(e)
    decreases |p|
  {
    if p == [] {
      assert [s][1..] == [];
    } else {
      assert (p + [s])[0] == p[0];
      assert (p + [s])[1..] == p[1..] + [s];
      match Enter(v, p[0])
      case Ok(child) => FollowAppend(child, p[1..], s);
      case Err(_) =>
    }
  }

  /** A value written through a live path is what that path then leads to. */
  lemma {:induction false} FollowStore(v: Value, p: Path, x: Value)
    requires Follow(v, p).Ok?
    ensures Follow(Store(v, p, x), p) == Ok(x)
    decreases |p|
  {
    if p != [] {
      match p[0]
      case Member(key) => FollowStore(v.members[key], p[1..], x);
      case Element(index) => FollowStore(v.elements[index], p[1..], x);
    }
  }

  /** Writing back what a path already leads to changes nothing. */
  lemma {:induction false} StoreFollow(v: Value, p: Path)
    requires Follow(v, p).Ok?
    ensures Store(v, p, Follow(v, p).value) == v
    decreases |p|
  {
    if p != [] {
      match p[0]
      case Member(key) => StoreFollow(v.members[key], p[1..]);
      case Element(index) => StoreFollow(v.elements[index], p[1..]);
    }
  }

  /**
   * Writing anywhere under one member leaves its sibling members as they were:
   * for keys k != k' under the same object, a write through p + [k] + q (a
   * reference into member k, or into something nested in it) leaves the path
   * to k' leading where it did before.
   */
  lemma {:induction false} StoreKeepsSibling(v: Value, p: Path, key: string, q: Path, other: string, x: Value)
    requires Follow(v, p + [Member(key)] + q).Ok?
    requires other != key
    ensures Follow(Store(v, p + [Member(key)] + q, x), p + [Member(other)]) == Follow(v, p + [Member(other)])
    decreases |p|
  {
    var w := p + [Member(key)] + q;
    if p == [] {
      assert w[0] == Member(key) && w[1..] == q;
      assert [Member(other)][1..] == [];
    } else {
      assert w[0] == p[0] && w[1..] == p[1..] + [Member(key)] + q;
      assert (p + [Member(other)])[0] == p[0] && (p + [Member(other)])[1..] == p[1..] + [Member(other)];
      match p[0]
      case Member(k) => StoreKeepsSibling(v.members[k], p[1..], key, q, other, x);
      case Element(i) => StoreKeepsSibling(v.elements[i], p[1..], key, q, other, x);
    }
  }

  /**
   * Writing anywhere under one array element leaves the other elements as they
   * were: for indexes i != j under the same array, a write through p + [i] + q
   * leaves the path to j leading where it did before.
   */
  lemma {:induction false} StoreKeepsOtherElement(v: Value, p: Path, index: nat, q: Path, other: nat, x: Value)
    requires Follow(v, p + [Element(index)] + q).Ok?
    requires other != index
    ensures Follow(Store(v, p + [Element(index)] + q, x), p + [Element(other)]) == Follow(v, p + [Element(other)])
    decreases |p|
  {
    var w := p + [Element(index)] + q;
    if p == [] {
      assert w[0] == Element(index) && w[1..] == q;
      assert [Element(other)][1..] == [];
    } else {
      assert w[0] == p[0] && w[1..] == p[1..] + [Element(index)] + q;
      assert (p + [Element(other)])[0] == p[0] && (p + [Element(other)])[1..] == p[1..] + [Element(other)];
      match p[0]
      case Member(k) => StoreKeepsOtherElement(v.members[k], p[1..], index, q, other, x);
      case Element(i) => StoreKeepsOtherElement(v.elements[i], p[1..], index, q, other, x);
    }
  }

  /** The memory a mutable reference to a JSON value points at. */
  class Place {
    var value: Value

    constructor (v: Value)
      ensures value == v
    {
      value := v;
    }

    /** The value a live reference currently points at. */
    function Target(at: Path): Value
      reads this
      requires Follow(value, at).Ok?
    {
      Follow(value, at).value
    }

    /** `*r = x` through a live mutable reference r. */
    method Assign(r: Path, x: Value)
      requires Follow(value, r).Ok?
      modifies this
      ensures value == Store(old(value), r, x)
      ensures Follow(value, r) == Ok(x)
    {
      FollowStore(value, r, x);
      value := Store(value, r, x);
    }

    /**
     * `put(key, x)` on the value at `at`: on an object, key now holds x and the
     * other members stay; on anything else, WrongType("Object") and no change.
     */
    method Put(at: Path, key: string, x: Value) returns (r: Result<()>)
      requires Follow(value, at).Ok?
      modifies this
      ensures r == if IsObject(old(Target(at))) then Ok(()) else Err(WrongType("Object"))
      ensures value == Store(old(value), at, AfterPut(old(Target(at)), key, x))
      ensures Follow(value, at) == Ok(AfterPut(old(Target(at)), key, x))
      ensures r.Err? ==> value == old(value)
    {
      var target := Target(at);
      FollowStore(value, at, AfterPut(target, key, x));
      match target
      case Object(members) =>
        value := Store(value, at, Object(members[key := x]));
        r := Ok(());
      case _ =>
        StoreFollow(value, at);
        r := Err(WrongType("Object"));
    }

    /**
     * `get_mut(key)` on the value at `at`: a reference to the member at key,
     * with exactly the failures of Get, and no change.
     */
    method GetMut(at: Path, key: string) returns (r: Result<Path>)
      requires Follow(value, at).Ok?
      ensures r.Ok? <==> Get(Target(at), key).Ok?
      ensures r.Ok? ==> r.value == at + [Member(key)] && Follow(value, r.value) == Get(Target(at), key)
      ensures r.Err? ==> Get(Target(at), key) == Err(r.error)
    {
      FollowAppend(value, at, Member(key));
      match Target(at)
      case Object(members) =>
        if key in members {
          r := Ok(at + [Member(key)]);
        } else {
          r := Err(Undefined(key));
        }
      case _ =>
        r := Err(WrongType("Object"));
    }

    /**
     * `with(key)` on the value at `at`: ensure it is an object holding key
     * (discarding a non-object) and return a reference to that member.
     */
    method With(at: Path, key: string) returns (r: Path)
      requires Follow(value, at).Ok?
      modifies this
      ensures value == Store(old(value), at, AfterWith(old(Target(at)), key))
      ensures r == at + [Member(key)]
      ensures Follow(value, r) == Get(AfterWith(old(Target(at)), key), key)
      ensures old(Get(Target(at), key)).Ok? ==> Follow(value, r) == old(Get(Target(at), key))
      ensures old(Get(Target(at), key)).Err? ==> Follow(value, r) == Ok(Null)
    {
      var target := Target(at);
      var after := AfterWith(target, key);
      FollowStore(value, at, after);
      match target {
        case Object(members) =>
          if key !in members {
            value := Store(value, at, Object(members[key := Null]));
          } else {
            StoreFollow(value, at);
          }
        case _ =>
          value := Store(value, at, Object(map[key := Null]));
      }
      r := at + [Member(key)];
      FollowAppend(value, at, Member(key));
    }

    /**
     * `push(x)` on the value at `at`: on an array, x is appended; on anything
     * else, WrongType("Array") and no change.
     */
    method Push(at: Path, x: Value) returns (r: Result<()>)
      requires Follow(value, at).Ok?
      modifies this
      ensures r == if IsArray(old(Target(at))) then Ok(()) else Err(WrongType("Array"))
      ensures value == Store(old(value), at, AfterPush(old(Target(at)), x))
      ensures Follow(value, at) == Ok(AfterPush(old(Target(at)), x))
      ensures r.Err? ==> value == old(value)
    {
      var target := Target(at);
      FollowStore(value, at, AfterPush(target, x));
      match target
      case Array(elements) =>
        value := Store(value, at, Array(elements + [x]));
        r := Ok(());
      case _ =>
        StoreFollow(value, at);
        r := Err(WrongType("Array"));
    }

    /**
     * `at_mut(index)` on the value at `at`: a reference to the element at
     * index, with exactly the failures of At, and no change.
     */
    method AtMut(at: Path, index: nat) returns (r: Result<Path>)
      requires Follow(value, at).Ok?
      ensures r.Ok? <==> At(Target(at), index).Ok?
      ensures r.Ok? ==> r.value == at + [Element(index)] && Follow(value, r.value) == At(Target(at), index)
      ensures r.Err? ==> At(Target(at), index) == Err(r.error)
    {
      FollowAppend(value, at, Element(index));
      match Target(at)
      case Array(elements) =>
        if index < |elements| {
          r := Ok(at + [Element(index)]);
        } else {
          r := Err(ArrayIndexOutOfBounds);
        }
      case _ =>
        r := Err(WrongType("Array"));
    }
  }
}
