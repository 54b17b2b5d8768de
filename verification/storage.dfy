/**
 * The entity store the actions run against (rogalik's `World`), reduced to
 * what the action layer and the data loader use: spawning, despawning,
 * inserting one component, reading a component, and enumerating entities.
 *
 * `State` is the store as a value; the class `World` holds the same data in
 * mutable fields, and its methods are the store operations the Rust code calls.
 */
module Storage {
  import opened Vectors
  import opened Components

  /** Entity ids are issued by a counter and never reused. */
  type Entity = nat

  /** The components of one entity, at most one per component type. */
  type Record = map<ComponentType, Component>

  ghost predicate WellTyped(rec: Record) {
    forall t :: t in rec ==> TypeOf(rec[t]) == t
  }

  predicate Distinct<T(==)>(xs: seq<T>) {
    forall i, j :: 0 <= i < j < |xs| ==> xs[i] != xs[j]
  }

  function Elements(xs: seq<Entity>): set<Entity> {
    set x | x in xs
  }

  /** The elements of `xs` that satisfy `keep`, in their order. */
  function Filter(xs: seq<Entity>, keep: Entity -> bool): (r: seq<Entity>)
    ensures forall x :: x in r <==> x in xs && keep(x)
    ensures Distinct(xs) ==> Distinct(r)
  {
    if xs == [] then []
    else
      var rest := Filter(xs[1..], keep);
      (if keep(xs[0]) then [xs[0]] else []) + rest
  }

  /** `xs` without the members of `gone`, in their order. */
  function Without(xs: seq<Entity>, gone: set<Entity>): (r: seq<Entity>)
    ensures forall x :: x in r <==> x in xs && x !in gone
    ensures Distinct(xs) ==> Distinct(r)
  {
    if xs == [] then []
    else
      var rest := Without(xs[1..], gone);
      (if xs[0] in gone then [] else [xs[0]]) + rest
  }

  lemma {:induction false} WithoutNothing(xs: seq<Entity>)
    ensures Without(xs, {}) == xs
  {
    if xs != [] {
      WithoutNothing(xs[1..]);
      assert [xs[0]] + xs[1..] == xs;
    }
  }

  lemma {:induction false} WithoutTwice(xs: seq<Entity>, a: set<Entity>, b: set<Entity>)
    ensures Without(Without(xs, a), b) == Without(xs, a + b)
  {
    if xs != [] {
      var x, tail := xs[0], xs[1..];
      WithoutTwice(tail, a, b);
      var rest := Without(tail, a);
      if x in a {
        assert Without(xs, a) == rest;
        assert Without(xs, a + b) == Without(tail, a + b);
      } else {
        var once := [x] + rest;
        assert Without(xs, a) == once;
        assert once[0] == x && once[1..] == rest;
        assert Without(once, b) == (if x in b then [] else [x]) + Without(rest, b);
        assert Without(xs, a + b) == (if x in b then [] else [x]) + Without(tail, a + b);
      }
    }
  }

  datatype State = State(order: seq<Entity>, comps: map<Entity, Record>, nextId: nat) {

    /**
     * `order` enumerates exactly the live entities, once each; every record
     * files each component under its own type; every id issued so far is
     * below `nextId`.
     */
    ghost predicate Valid() {
      && Distinct(order)
      && (forall e :: e in comps <==> e in order)
      && (forall e :: e in comps ==> e < nextId)
      && (forall e :: e in comps ==> WellTyped(comps[e]))
    }

    predicate Live(e: Entity) {
      e in comps
    }

    /** The store's `get_component::<T>`. */
    function Lookup(e: Entity, t: ComponentType): Option<Component> {
      if e in comps && t in comps[e] then Some(comps[e][t]) else None
    }

    predicate Has(e: Entity, t: ComponentType) {
      Lookup(e, t).Some?
    }

    function PositionOf(e: Entity): Option<Vec2> {
      match Lookup(e, PositionType)
      case Some(Position(p)) => Some(p)
      case _ => None
    }

    function HealthOf(e: Entity): Option<u32> {
      match Lookup(e, HealthType)
      case Some(Health(h)) => Some(h)
      case _ => None
    }

    /**
     * `insert_component(e, c)`: files `c` under its type on a live entity,
     * replacing one of the same type; on a dead entity it changes nothing.
     */
    function Insert(e: Entity, c: Component): (t: State)
      ensures t.order == order && t.nextId == nextId
      ensures forall x :: t.Live(x) <==> Live(x)
      ensures forall x, ty :: t.Lookup(x, ty) ==
                if x == e && ty == TypeOf(c) && Live(e) then Some(c) else Lookup(x, ty)
      ensures Valid() ==> t.Valid()
    {
      if e in comps then State(order, comps[e := comps[e][TypeOf(c) := c]], nextId)
      else this
    }

    /** `spawn_entity` followed by filing `rec`: a fresh id, enumerated last. */
    function SpawnedWith(rec: Record): (t: State)
      ensures t.nextId == nextId + 1 && t.order == order + [nextId]
      ensures forall x :: t.Live(x) <==> Live(x) || x == nextId
      ensures forall x, ty :: x != nextId ==> t.Lookup(x, ty) == Lookup(x, ty)
      ensures forall ty :: t.Lookup(nextId, ty) == if ty in rec then Some(rec[ty]) else None
      ensures Valid() && WellTyped(rec) ==> t.Valid() && !Live(nextId)
    {
      var t := State(order + [nextId], comps[nextId := rec], nextId + 1);
      assert Valid() ==> nextId !in order;
      t
    }

    /** `despawn_entity` of every member of `gone`. */
    function Despawned(gone: set<Entity>): (t: State)
      ensures t.nextId == nextId
      ensures forall x :: x in t.order <==> x in order && x !in gone
      ensures forall x :: t.Live(x) <==> Live(x) && x !in gone
      ensures forall x, ty :: t.Lookup(x, ty) == if x in gone then None else Lookup(x, ty)
      ensures Valid() ==> t.Valid()
    {
      State(Without(order, gone), comps - gone, nextId)
    }

    /** All live entities whose `Position` is `p`, in store order. */
    function EntitiesAt(p: Vec2): (r: seq<Entity>)
      ensures forall e :: e in r <==> e in order && PositionOf(e) == Some(p)
      ensures Valid() ==> Distinct(r)
    {
      Filter(order, (e: Entity) => PositionOf(e) == Some(p))
    }
  }

  /** Despawning one set of entities and then another is despawning both. */
  lemma DespawnedTwice(s: State, a: set<Entity>, b: set<Entity>)
    ensures s.Despawned(a).Despawned(b) == s.Despawned(a + b)
  {
    WithoutTwice(s.order, a, b);
    assert s.comps - a - b == s.comps - (a + b);
  }

  lemma DespawnedNothing(s: State)
    ensures s.Despawned({}) == s
  {
    WithoutNothing(s.order);
    assert s.comps - {} == s.comps;
  }

  /** The mutable store. */
  class World {
    var order: seq<Entity>
    var comps: map<Entity, Record>
    var nextId: nat

    function Snapshot(): State
      reads this
    {
      State(order, comps, nextId)
    }

    ghost predicate Valid()
      reads this
    {
      Snapshot().Valid()
    }

    constructor ()
      ensures Valid() && Snapshot() == State([], map[], 0)
    {
      order, comps, nextId := [], map[], 0;
    }

    /** `spawn_entity`: a fresh entity with no components. */
    method SpawnEntity() returns (e: Entity)
      requires Valid()
      modifies this
      ensures Valid()
      ensures e == old(nextId) && !old(Snapshot()).Live(e)
      ensures Snapshot() == old(Snapshot()).SpawnedWith(map[])
    {
      ghost var before := Snapshot();
      e := nextId;
      order, comps, nextId := order + [e], comps[e := map[]], nextId + 1;
      assert WellTyped(map[]);
      assert Snapshot() == before.SpawnedWith(map[]);
    }

    /** `insert_component`; `ok` is false, and nothing changes, on a dead entity. */
    method InsertComponent(e: Entity, c: Component) returns (ok: bool)
      requires Valid()
      modifies this
      ensures Valid()
      ensures ok <==> old(Snapshot()).Live(e)
      ensures Snapshot() == old(Snapshot()).Insert(e, c)
    {
      ok := e in comps;
      if ok {
        comps := comps[e := comps[e][TypeOf(c) := c]];
      }
    }

    /** `despawn_entity`. */
    method DespawnEntity(e: Entity)
      requires Valid()
      modifies this
      ensures Valid()
      ensures Snapshot() == old(Snapshot()).Despawned({e})
    {
      order, comps := Without(order, {e}), comps - {e};
    }
  }
}
