# Disco party roster and entity-handle demo

This is a Dafny model of the two pieces of the course guide that hold
behaviour you can state.

- **The disco party** (`disco/`). A `Dancer` is a record whose only data is
  its name. A `Party` owns an ordered, append-only list of dancers, stored by
  value. `AddDancer` appends one dancer in place. `WhoIsAtThisParty` is a
  read-only query. It walks the list in a loop and collects the names in
  insertion order. In the model:
  - `Disco.Dancer` is a datatype.
  - `Disco.Party` is a class with one `seq<Dancer>` field.
  - `AddDancer` is a `modifies this` method.
  - `WhoIsAtThisParty` is a method with a loop, proved against the
    specification function `Disco.Names`.
- **The entity handle and the placeholder ECS** (`demo/entity_get.cpp`).
  - `EntityID` wraps a 64-bit integer. It defaults to -1, is built from an
    integer and converts back to it.
  - `ECS::Get<T>` ignores its entity argument. It returns a reference to one
    value-initialised `static T` per component type.
  - In the model, handles and the demo's `Foo` component are datatypes.
  - Each per-type static is a `Slot<T>` object, and handing out that object
    models handing out the reference `T&`.
  - `Ecs` holds one slot per component type the model instantiates: `Foo`
    from the demo, and `int`.
  - The global `ecs` becomes a parameter of `EntityGetFoo`/`EntityGetInt`.

Files: `disco.dfy` (module `Disco`), `disco_demo.dfy` (module `DiscoDemo`,
the demo program's scenario), `entity_get.dfy` (module `EntityGet`).

The repository's prose describes a full sparse-set entity-component store
with create, destroy, has, drop and conjunctive queries. No source file
implements one. The only ECS code is the placeholder in
`demo/entity_get.cpp`, and the model follows that code.

## Model

| member | source | states |
|---|---|---|
| `Disco.DefaultDancer` | disco/dancer.h:10 | a default-constructed dancer's name is the empty string |
| `Disco.NamedDancer` | disco/dancer.h:11 | `Dancer(n).name == n`; the result is the default dancer exactly when `n` is empty |
| `Disco.Names` | disco/ballroom.cpp:8-20 | the specification of the query: as many names as dancers, and element i is the name of dancer i |
| `Disco.NamesAppend` | disco/ballroom.cpp:5-7 | appending a dancer appends exactly its name to the name list, leaving the earlier names unchanged |
| `Disco.SameNameTwiceGivesTwoEntries` | disco/ballroom.cpp:6 | no deduplication: two same-named dancers add that name twice, and its multiplicity grows by 2 |
| `Disco.Party.constructor` | disco/ballroom.h:16-17 | a new party's only state, the dancer list, is empty |
| `Disco.Party.AddDancer` | disco/ballroom.cpp:5-7 | the list becomes the old list plus `d` at the end; every earlier dancer keeps its index; the name list gains exactly `d.name` |
| `Disco.Party.WhoIsAtThisParty` | disco/ballroom.cpp:8-20 | the loop returns `Names` of the dancer list: same length, element i is dancer i's name; no `modifies`, so the party is unchanged |
| `Disco.QueryTwice` | disco/ballroom.h:14 | two queries with nothing in between return equal lists |
| `DiscoDemo.Demo` | demo/disco_demo.cpp:8-13 | adding "cat", "dog", "fish" then querying yields `["cat", "dog", "fish"]` |
| `DiscoDemo.EmptyParty` | disco/ballroom.cpp:10-19 | a party with no dancers answers with the empty list |
| `DiscoDemo.SameNameTwice` | disco/ballroom.cpp:5-6 | adding two dancers named `n` makes the query return `[n, n]` |
| `EntityGet.DefaultEntityId` | demo/entity_get.cpp:15-19 | a default-constructed handle has id -1 |
| `EntityGet.EntityIdOf` | demo/entity_get.cpp:17 | `EntityID(val).id == val`; the result is the default handle exactly when `val == -1` |
| `EntityGet.ToId` | demo/entity_get.cpp:22 | converting to an integer gives the value the handle is built from (`EntityIdOf(ToId(e)) == e`) |
| `EntityGet.BuildThenConvert` | demo/entity_get.cpp:17-22 | building a handle from `val` and converting it back yields `val` |
| `EntityGet.SameEntity` | demo/entity_get.cpp:56-57 | comparing two handles through their integers is true exactly when the handles (equivalently their ids) are equal |
| `EntityGet.DefaultFoo` | demo/entity_get.cpp:61-67 | a value-initialised `Foo` holds 0 |
| `EntityGet.FooOf` | demo/entity_get.cpp:64 | `Foo(v).value == v`; the result is the default `Foo` exactly when `v == 0` |
| `EntityGet.FooToInt` | demo/entity_get.cpp:65 | converting a `Foo` to `int` inverts `FooOf` |
| `EntityGet.Slot.constructor` | demo/entity_get.cpp:34 | a per-type static slot starts with its initial value |
| `EntityGet.Ecs.constructor` | demo/entity_get.cpp:32-35 | each component type gets its own fresh slot, value-initialised (`Foo` 0, `int` 0) |
| `EntityGet.Ecs.GetFoo` | demo/entity_get.cpp:34 | `Get<Foo>` returns the one `Foo` slot whatever the entity |
| `EntityGet.Ecs.GetInt` | demo/entity_get.cpp:34 | `Get<int>` returns the one `int` slot whatever the entity |
| `EntityGet.EntityGetFoo` | demo/entity_get.cpp:41 | `EntityID::Get<Foo>()` is `ecs.Get<Foo>(*this)`: the global ECS's `Foo` slot |
| `EntityGet.EntityGetInt` | demo/entity_get.cpp:41 | `EntityID::Get<int>()` is the global ECS's `int` slot |
| `EntityGet.SameSlotForEveryEntity` | demo/entity_get.cpp:33-34 | any two entities resolve to the same slot for a given component type |
| `EntityGet.WriteThenRead` | demo/entity_get.cpp:71-72 | a write through one entity's `Get<Foo>()` is read back by any entity's later `Get<Foo>()`; the other type's slot is unchanged |
| `EntityGet.HandleDemo` | demo/entity_get.cpp:47-57 | after `a(1)`, `b(2)`, `b = 3`: ids 1 and 3, `a == b` false, `a == a` true |
| `EntityGet.ComponentDemo` | demo/entity_get.cpp:70-72 | on a fresh ECS, `Foo` starts at 0; after `a.Get<Foo>() = 7` both `a` and `b` read 7 and the `int` slot is still 0 |

## Left out

- Printing (`std::cout` in both `main` functions) is I/O and is not modelled. The demos return the values the programs print.
- `result.reserve(...)` in `WhoIsAtThisParty` only affects capacity, not contents, so it is not modelled.
- Value semantics (`const Dancer&` arguments and copying into `mDancers`, copying the string in `Dancer(n)`) are not stated as separate lemmas. Dafny datatypes and strings are immutable values, so a caller's later changes cannot reach the party.
- `ECS::Get<T>` uses a function-local `static`. That static is shared by every `ECS` object and is initialised on the first call. The model keeps the slots in the `Ecs` object and initialises them in its constructor. The program has one `ECS`, the global `ecs`, and nothing can observe a slot before the first `Get`, so these differ in no observable way.
- `Get<T>` is a template over every component type. The model instantiates it for the demo's `Foo` and for `int`. `int` is there only so that per-type separation can be stated.
- The global `ecs` is a parameter of `EntityGetFoo`/`EntityGetInt`, because Dafny has no mutable globals.
- The sparse-set entity/component store (create, destroy, has, drop, multi-kind queries, generational ids) is described in prose only. No source file implements it, so it is not modelled.
- The other demos (`paths`, `chrono_sleep_for`, the Lua demos, pimpl, globals, friend, callbacks, lambdas, inheritance, `unique_ptr`, `template_add`, `map_vector_inner_class`) are not part of this model. They show language mechanics, do I/O or call into foreign libraries.
