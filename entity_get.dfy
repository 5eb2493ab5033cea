/**
  The entity handle and the placeholder entity-component system of
  demo/entity_get.cpp. `EntityID` wraps a 64-bit integer; `ECS::Get<T>`
  ignores the entity and hands out a reference to one value-initialised
  slot per component type, so every entity sees the same component.
 */
module EntityGet {

  /** `int64_t`, the entity id's representation. */
  newtype int64 = x: int | -0x8000_0000_0000_0000 <= x < 0x8000_0000_0000_0000

  /** `int`, the representation of the demo's `Foo` component (32 bits). */
  newtype int32 = x: int | -0x8000_0000 <= x < 0x8000_0000

  /** An entity handle: its only data is the integer id. */
  datatype EntityId = EntityId(id: int64)

  /** `EntityID()`: the id defaults to -1. */
  function DefaultEntityId(): (e: EntityId)
    ensures e.id == -1
  {
    EntityId(-1)
  }

  /** `EntityID(val)`; also what assigning an integer to an entity does
      (`b = 3` builds a handle from 3 and copies it over `b`). */
  function EntityIdOf(val: int64): (e: EntityId)
    ensures e.id == val
    ensures e == DefaultEntityId() <==> val == -1
  {
    EntityId(val)
  }

  /** `operator IDType()`: the handle converts back to the integer it was
      built from. */
  function ToId(e: EntityId): (r: int64)
    ensures EntityIdOf(r) == e
  {
    e.id
  }

  /** Building a handle and converting it back gives the integer again. */
  lemma BuildThenConvert(val: int64)
    ensures ToId(EntityIdOf(val)) == val
  {
  }

  /** `a == b` on two handles compares the integers they convert to; that
      holds exactly when the handles are the same. */
  function SameEntity(a: EntityId, b: EntityId): (r: bool)
    ensures r <==> a == b
    ensures r <==> a.id == b.id
  {
    ToId(a) == ToId(b)
  }

  /** The demo's component: one `int`, value-initialised to 0. */
  datatype Foo = Foo(value: int32)

  /** `Foo() = default` (and `Foo{}`): the value is 0. */
  function DefaultFoo(): (f: Foo)
    ensures f.value == 0
  {
    Foo(0)
  }

  /** `Foo(int v)`: what `a.Get<Foo>() = 7` builds before assigning. */
  function FooOf(v: int32): (f: Foo)
    ensures f.value == v
    ensures f == DefaultFoo() <==> v == 0
  {
    Foo(v)
  }

  /** `operator int()` on `Foo`: the inverse of `FooOf`. */
  function FooToInt(f: Foo): (r: int32)
    ensures FooOf(r) == f
  {
    f.value
  }

  /** The storage behind one instantiation of `Get<T>`: `static T val{}`.
      Handing out the object models handing out the reference `T&`. */
  class Slot<T> {
    var value: T

    constructor (init: T)
      ensures value == init
    {
      value := init;
    }
  }

  /** The placeholder ECS. It keeps one slot per component type: `foo` for
      `Get<Foo>` and `ints` for `Get<int>`, each value-initialised. */
  class Ecs {
    const foo: Slot<Foo>
    const ints: Slot<int32>

    constructor ()
      ensures fresh(foo) && fresh(ints)
      ensures foo.value == DefaultFoo() && ints.value == 0
    {
      foo := new Slot(DefaultFoo());
      ints := new Slot(0);
    }

    /** `Get<Foo>(entity)`: the entity is ignored; every entity gets the
        one `Foo` slot. */
    method GetFoo(entity: EntityId) returns (r: Slot<Foo>)
      ensures r == foo
    {
      r := foo;
    }

    /** `Get<int>(entity)`: likewise, the one `int` slot. */
    method GetInt(entity: EntityId) returns (r: Slot<int32>)
      ensures r == ints
    {
      r := ints;
    }
  }

  /** `EntityID::Get<Foo>()`: exactly `ecs.Get<Foo>(*this)` on the global
      ECS, passed in here as `ecs`. */
  method EntityGetFoo(self: EntityId, ecs: Ecs) returns (r: Slot<Foo>)
    ensures r == ecs.foo
  {
    r := ecs.GetFoo(self);
  }

  /** `EntityID::Get<int>()`: exactly `ecs.Get<int>(*this)`. */
  method EntityGetInt(self: EntityId, ecs: Ecs) returns (r: Slot<int32>)
    ensures r == ecs.ints
  {
    r := ecs.GetInt(self);
  }

  /** Any two entities resolve to the same slot for a given component type. */
  method SameSlotForEveryEntity(ecs: Ecs, a: EntityId, b: EntityId)
    returns (sa: Slot<Foo>, sb: Slot<Foo>)
    ensures sa == sb
  {
    sa := EntityGetFoo(a, ecs);
    sb := EntityGetFoo(b, ecs);
  }

  /** A write through one entity's `Get<Foo>()` is what any entity's later
      `Get<Foo>()` reads, and the `int` slot is untouched. */
  method WriteThenRead(ecs: Ecs, writer: EntityId, reader: EntityId, v: Foo)
    returns (seen: Foo)
    modifies ecs.foo
    ensures seen == v
    ensures ecs.foo.value == v
    ensures ecs.ints.value == old(ecs.ints.value)
  {
    var w := EntityGetFoo(writer, ecs);
    w.value := v;
    var r := EntityGetFoo(reader, ecs);
    seen := r.value;
  }

  /** The demo's handle part: `a(1)`, `b(2)`, then `b = 3`; `a == b` is
      false and `a == a` is true. */
  method HandleDemo() returns (a: EntityId, b: EntityId, aIsB: bool, aIsA: bool)
    ensures a.id == 1 && b.id == 3
    ensures !aIsB && aIsA
  {
    a := EntityIdOf(1);
    b := EntityIdOf(2);
    b := EntityIdOf(3);
    aIsB := SameEntity(a, b);
    aIsA := SameEntity(a, a);
  }

  /** The demo's component part on a fresh ECS: `Foo` starts at 0,
      `a.Get<Foo>() = 7` makes every entity's `Get<Foo>()` read 7, and the
      `int` slot stays 0. */
  method ComponentDemo() returns (before: int32, byA: int32, byB: int32, other: int32)
    ensures before == 0 && byA == 7 && byB == 7 && other == 0
  {
    var ecs := new Ecs();
    var a := EntityIdOf(1);
    var b := EntityIdOf(3);
    var s := EntityGetFoo(b, ecs);
    before := FooToInt(s.value);
    s := EntityGetFoo(a, ecs);
    s.value := FooOf(7);
    s := EntityGetFoo(a, ecs);
    byA := FooToInt(s.value);
    s := EntityGetFoo(b, ecs);
    byB := FooToInt(s.value);
    var t := EntityGetInt(a, ecs);
    other := t.value;
  }
}
