/**
 * The action layer: every gameplay effect is an `Action` value with three
 * behaviours, `execute` (change the world and return follow-up actions, or
 * fail), `score` (a utility number for the AI, read-only) and `event` (a tag
 * for rendering and audio).
 */
module Actions {
  import opened Vectors
  import opened Components
  import opened Storage
  import Events

  datatype Action =
    | Travel(entity: Entity, target: Vec2)
    | Shoot(source: Vec2, dir: Vec2, dist: u32, damage: u32)
    | Paralyze(subject: Entity, value: u32)       // `target` in the Rust struct
    | Pause(entity: Entity)
    | PlaceBouy(position: Vec2, health: u32)
    | MeleeHit(entity: Entity, target: Vec2, value: u32)
    | Damage(entity: Entity, value: u32)
    | PickItem(entity: Entity)

  /** `Result<Vec<Box<dyn Action>>, ()>`. */
  datatype Result<T> = Ok(value: T) | Err

  type ActionResult = Result<seq<Action>>

  // ---------------------------------------------------------------- event

  /** Travel and MeleeHit describe themselves; every other action is `Other`. */
  function Event(a: Action): (ev: Events.ActionEvent)
    ensures ev.Travel? <==> a.Travel?
    ensures ev.Melee? <==> a.MeleeHit?
    ensures ev.Travel? ==> ev.entity == a.entity && ev.target == a.target
    ensures ev.Melee? ==> ev.entity == a.entity && ev.target == a.target && ev.value == a.value
  {
    match a
    case Travel(e, t) => Events.Travel(e, t)
    case MeleeHit(e, t, v) => Events.Melee(e, t, v)
    case _ => Events.Other
  }

  // ------------------------------------------------------------- queries

  predicate IsPlacedPlayerCharacter(s: State, e: Entity) {
    s.Has(e, PlayerCharacterType) && s.PositionOf(e).Some?
  }

  /**
   * The position of the first entity of `xs` that carries both
   * `PlayerCharacter` and `Position` (the query `.next()` of the scores).
   */
  function PlayerPositionAmong(s: State, xs: seq<Entity>): (r: Option<Vec2>)
    ensures r.None? <==> forall e :: e in xs ==> !IsPlacedPlayerCharacter(s, e)
    ensures r.Some? ==> exists e :: e in xs && IsPlacedPlayerCharacter(s, e) && s.PositionOf(e) == r
  {
    if xs == [] then None
    else if IsPlacedPlayerCharacter(s, xs[0]) then s.PositionOf(xs[0])
    else PlayerPositionAmong(s, xs[1..])
  }

  function PlayerPosition(s: State): Option<Vec2> {
    PlayerPositionAmong(s, s.order)
  }

  /** When the player character is unique, the scores see its position. */
  lemma PlayerPositionOfUniquePlayer(s: State, pc: Entity)
    requires pc in s.order && IsPlacedPlayerCharacter(s, pc)
    requires forall e :: e in s.order && IsPlacedPlayerCharacter(s, e) ==> e == pc
    ensures PlayerPosition(s) == s.PositionOf(pc)
  {
  }

  /** Positions of the entities of `xs` that carry both `Obstacle` and `Position`. */
  function ObstaclePositionsAmong(s: State, xs: seq<Entity>): (r: seq<Vec2>)
    ensures forall p :: p in r <==>
              exists e :: e in xs && s.Has(e, ObstacleType) && s.PositionOf(e) == Some(p)
  {
    if xs == [] then []
    else
      var rest := ObstaclePositionsAmong(s, xs[1..]);
      var head := if s.Has(xs[0], ObstacleType) && s.PositionOf(xs[0]).Some?
                  then [s.PositionOf(xs[0]).value] else [];
      assert forall e :: e in xs <==> e == xs[0] || e in xs[1..];
      head + rest
  }

  function ObstaclePositions(s: State): seq<Vec2> {
    ObstaclePositionsAmong(s, s.order)
  }

  // -------------------------------------------------------------- Travel

  /**
   * Travel moves the actor to `target`: it fails, changing nothing, when the
   * actor has no `Position`; otherwise it overwrites that position (and
   * nothing else) and has no follow-ups.
   */
  method ExecuteTravel(w: World, entity: Entity, target: Vec2) returns (r: ActionResult)
    requires w.Valid()
    modifies w
    ensures w.Valid()
    ensures r.Err? <==> old(w.Snapshot()).PositionOf(entity).None?
    ensures r.Err? ==> w.Snapshot() == old(w.Snapshot())
    ensures r.Ok? ==> r.value == [] && w.Snapshot() == old(w.Snapshot()).Insert(entity, Position(target))
  {
    if w.Snapshot().PositionOf(entity).None? {
      return Err;
    }
    var written := w.InsertComponent(entity, Position(target));
    r := Ok([]);
  }

  /**
   * 20 minus the Manhattan distance from `target` to the player character,
   * or 0 when no entity has both `PlayerCharacter` and `Position`.
   */
  function TravelScore(s: State, target: Vec2): (r: int)
    ensures PlayerPosition(s).None? ==> r == 0
    ensures PlayerPosition(s).Some? ==> r <= 20 && (r == 20 <==> PlayerPosition(s) == Some(target))
  {
    match PlayerPosition(s)
    case None => 0
    case Some(p) => 20 - Manhattan(target, p)
  }

  /** With a unique player character, Travel's score is 20 - manhattan(target, its position). */
  lemma TravelScoreTowardsPlayer(s: State, target: Vec2, pc: Entity)
    requires pc in s.order && IsPlacedPlayerCharacter(s, pc)
    requires forall e :: e in s.order && IsPlacedPlayerCharacter(s, e) ==> e == pc
    ensures TravelScore(s, target) == 20 - Manhattan(target, s.PositionOf(pc).value)
  {
  }

  /** A cell nearer to the player always scores higher. */
  lemma TravelScoreFavoursNearerCells(s: State, near: Vec2, far: Vec2)
    requires PlayerPosition(s).Some?
    requires Manhattan(near, PlayerPosition(s).value) < Manhattan(far, PlayerPosition(s).value)
    ensures TravelScore(s, near) > TravelScore(s, far)
  {
  }

  // --------------------------------------------------------------- Shoot

  /**
   * The number of single steps a shot takes from `source` along `dir`,
   * trying steps `i`, `i + 1`, ..., `dist` and stopping at the first one
   * whose cell is an obstacle.
   */
  function StopFrom(obstacles: seq<Vec2>, source: Vec2, dir: Vec2, dist: nat, i: nat): (k: nat)
    requires 1 <= i <= dist + 1
    decreases dist + 1 - i
    ensures k <= dist && (i <= dist ==> i <= k)
    ensures forall j :: i <= j < k ==> Walk(source, dir, j) !in obstacles
    ensures k < dist ==> Walk(source, dir, k) in obstacles
  {
    if i > dist then dist
    else if Walk(source, dir, i) in obstacles then i
    else StopFrom(obstacles, source, dir, dist, i + 1)
  }

  /**
   * How far a shot gets: the smallest step in 1..dist whose cell is an
   * obstacle, or `dist` when there is none. The cell `source` itself is
   * never tested, so `dist == 0` stays at `source`.
   */
  function ImpactSteps(obstacles: seq<Vec2>, source: Vec2, dir: Vec2, dist: nat): (k: nat)
    ensures k <= dist
    ensures forall j :: 1 <= j < k ==> Walk(source, dir, j) !in obstacles
    ensures k < dist ==> 1 <= k && Walk(source, dir, k) in obstacles
  {
    StopFrom(obstacles, source, dir, dist, 1)
  }

  /** The three properties of `ImpactSteps` single out one number of steps. */
  lemma ImpactStepsIsFirstObstacle(obstacles: seq<Vec2>, source: Vec2, dir: Vec2, dist: nat, k: nat)
    requires k <= dist
    requires forall j :: 1 <= j < k ==> Walk(source, dir, j) !in obstacles
    requires k < dist ==> 1 <= k && Walk(source, dir, k) in obstacles
    ensures k == ImpactSteps(obstacles, source, dir, dist)
  {
  }

  /** The cell a shot resolves to: `source + k * dir` for k = ImpactSteps. */
  function ImpactCell(s: State, source: Vec2, dir: Vec2, dist: nat): Vec2 {
    Walk(source, dir, ImpactSteps(ObstaclePositions(s), source, dir, dist))
  }

  /** A shot from (0,0) along (1,0) over 5 cells with an obstacle at (3,0) stops after 3 steps, on (3,0). */
  lemma ShotStopsAtObstacle()
    ensures ImpactSteps([Vec2(3, 0)], Vec2(0, 0), Vec2(1, 0), 5) == 3
    ensures Walk(Vec2(0, 0), Vec2(1, 0), 3) == Vec2(3, 0)
  {
    var obstacles, source, dir := [Vec2(3, 0)], Vec2(0, 0), Vec2(1, 0);
    assert forall j :: 1 <= j < 3 ==> Walk(source, dir, j).x == j;
    ImpactStepsIsFirstObstacle(obstacles, source, dir, 5, 3);
  }

  /** `Shoot::get_target`: walk up to `dist` steps, breaking at the first obstacle. */
  method GetTarget(s: State, source: Vec2, dir: Vec2, dist: u32) returns (target: Vec2)
    ensures target == ImpactCell(s, source, dir, dist)
  {
    var obstacles := ObstaclePositions(s);
    target := source;
    var i: nat := 1;
    while i <= dist
      invariant 1 <= i <= dist + 1
      invariant target == Walk(source, dir, i - 1)
      invariant forall j :: 1 <= j < i ==> Walk(source, dir, j) !in obstacles
    {
      target := target.Add(dir);
      if target in obstacles {
        ImpactStepsIsFirstObstacle(obstacles, source, dir, dist, i);
        return;
      }
      i := i + 1;
    }
    ImpactStepsIsFirstObstacle(obstacles, source, dir, dist, dist);
  }

  /**
   * Shoot never fails and has no follow-ups: it spawns exactly one fresh
   * entity carrying only a `Projectile` aimed at the resolved target; every
   * existing entity is left as it was.
   */
  method ExecuteShoot(w: World, source: Vec2, dir: Vec2, dist: u32, damage: u32) returns (r: ActionResult)
    requires w.Valid()
    modifies w
    ensures w.Valid()
    ensures r == Ok([])
    ensures w.Snapshot() == old(w.Snapshot()).SpawnedWith(
              map[ProjectileType := Projectile(damage, source, ImpactCell(old(w.Snapshot()), source, dir, dist))])
  {
    var target := GetTarget(w.Snapshot(), source, dir, dist);
    ghost var before := w.Snapshot();
    var entity := w.SpawnEntity();
    var inserted := w.InsertComponent(entity, Projectile(damage, source, target));
    SpawnThenInsert(before, map[], Projectile(damage, source, target));
    r := Ok([]);
  }

  /** 100 exactly when the shot would land on the player character, else 0. */
  function ShootScore(s: State, source: Vec2, dir: Vec2, dist: u32): (r: int)
    ensures r == 100 || r == 0
    ensures r == 100 <==> PlayerPosition(s) == Some(ImpactCell(s, source, dir, dist))
  {
    match PlayerPosition(s)
    case None => 0
    case Some(p) => if ImpactCell(s, source, dir, dist) == p then 100 else 0
  }

  /** Spawning a record and then inserting into the new entity is spawning the larger record. */
  lemma SpawnThenInsert(s: State, rec: Record, c: Component)
    ensures s.SpawnedWith(rec).Insert(s.nextId, c) == s.SpawnedWith(rec[TypeOf(c) := c])
  {
  }

  // ------------------------------------------------------------ Paralyze

  /**
   * Paralyze files `Paralyzed(value)` on its subject and always succeeds
   * without follow-ups; on a despawned subject the insertion is a no-op.
   */
  method ExecuteParalyze(w: World, subject: Entity, value: u32) returns (r: ActionResult)
    requires w.Valid()
    modifies w
    ensures w.Valid()
    ensures r == Ok([])
    ensures w.Snapshot() == old(w.Snapshot()).Insert(subject, Paralyzed(value))
    ensures !old(w.Snapshot()).Live(subject) ==> w.Snapshot() == old(w.Snapshot())
  {
    var inserted := w.InsertComponent(subject, Paralyzed(value));
    r := Ok([]);
  }

  // --------------------------------------------------------------- Pause

  /** Pausing is a no-op, except that the player character also picks up items. */
  function PauseFollowUps(s: State, entity: Entity): (r: seq<Action>)
    ensures s.Has(entity, PlayerCharacterType) ==> r == [PickItem(entity)]
    ensures !s.Has(entity, PlayerCharacterType) ==> r == []
  {
    if s.Has(entity, PlayerCharacterType) then [PickItem(entity)] else []
  }

  // ----------------------------------------------------------- PlaceBouy

  /** A spawn template with the given `Position` filed over it. */
  function WithPosition(template: Record, position: Vec2): (r: Record)
    ensures PositionType in r && r[PositionType] == Position(position)
    ensures forall t :: t != PositionType ==> (t in r <==> t in template) && (t in r ==> r[t] == template[t])
    ensures WellTyped(template) ==> WellTyped(r)
  {
    template[PositionType := Position(position)]
  }

  /**
   * `spawn_with_position(world, name, position)`, from crate::utils, which is
   * not part of this model. `template` stands for the components the name
   * selects, `None` when the helper yields no entity. On success the helper
   * spawns a fresh entity, files the template's components on it one by one
   * and then its `Position`.
   */
  method SpawnWithPosition(w: World, position: Vec2, template: Option<Record>) returns (e: Option<Entity>)
    requires w.Valid()
    requires template.Some? ==> WellTyped(template.value)
    modifies w
    ensures w.Valid()
    ensures e.Some? <==> template.Some?
    ensures template.None? ==> w.Snapshot() == old(w.Snapshot())
    ensures template.Some? ==> (e.value == old(w.nextId)
              && w.Snapshot() == old(w.Snapshot()).SpawnedWith(WithPosition(template.value, position)))
  {
    if template.None? {
      return None;
    }
    var rec := template.value;
    ghost var before := w.Snapshot();
    var entity := w.SpawnEntity();
    var left := rec.Keys;
    ghost var filed: Record := map[];
    while left != {}
      invariant left <= rec.Keys
      invariant forall t :: t in filed <==> t in rec && t !in left
      invariant forall t :: t in filed ==> filed[t] == rec[t]
      invariant w.Valid()
      invariant w.Snapshot() == before.SpawnedWith(filed)
      decreases |left|
    {
      var t :| t in left;
      var filedOne := w.InsertComponent(entity, rec[t]);
      SpawnThenInsert(before, filed, rec[t]);
      filed := filed[t := rec[t]];
      left := left - {t};
    }
    assert filed == rec;
    var placed := w.InsertComponent(entity, Position(position));
    SpawnThenInsert(before, rec, Position(position));
    e := Some(entity);
  }

  /** The components a placed buoy starts with: the template's, then `Position`, `Player` and `Health`. */
  function BuoyRecord(template: Record, position: Vec2, health: u32): (r: Record)
    ensures PositionType in r && PlayerType in r && HealthType in r
    ensures r[PositionType] == Position(position) && r[PlayerType] == Player && r[HealthType] == Health(health)
    ensures forall t :: t !in {PositionType, PlayerType, HealthType} ==>
              (t in r <==> t in template) && (t in r ==> r[t] == template[t])
    ensures WellTyped(template) ==> WellTyped(r)
  {
    WithPosition(template, position)[PlayerType := Player][HealthType := Health(health)]
  }

  /**
   * PlaceBouy fails, changing nothing, exactly when the spawn helper yields no
   * entity; otherwise it adds one fresh allied entity with the given health.
   */
  method ExecutePlaceBouy(w: World, position: Vec2, health: u32, template: Option<Record>)
      returns (r: ActionResult)
    requires w.Valid()
    requires template.Some? ==> WellTyped(template.value)
    modifies w
    ensures w.Valid()
    ensures r.Err? <==> template.None?
    ensures r.Err? ==> w.Snapshot() == old(w.Snapshot())
    ensures r.Ok? ==> (r.value == [] &&
              w.Snapshot() == old(w.Snapshot()).SpawnedWith(BuoyRecord(template.value, position, health)))
  {
    ghost var before := w.Snapshot();
    var spawned := SpawnWithPosition(w, position, template);
    if spawned.None? {
      return Err;
    }
    var entity := spawned.value;
    ghost var placed := WithPosition(template.value, position);
    var marked := w.InsertComponent(entity, Player);
    SpawnThenInsert(before, placed, Player);
    assert w.Snapshot() == before.SpawnedWith(placed[PlayerType := Player]);
    var healed := w.InsertComponent(entity, Health(health));
    SpawnThenInsert(before, placed[PlayerType := Player], Health(health));
    assert w.Snapshot() == before.SpawnedWith(BuoyRecord(template.value, position, health));
    r := Ok([]);
  }

  // ------------------------------------------------------------ MeleeHit

  /** One `Damage(e, value)` for each entity of `es` that has `Health`, in order. */
  function DamageEach(s: State, es: seq<Entity>, value: u32): (r: seq<Action>)
    ensures forall a :: a in r ==> a.Damage? && a.value == value
    ensures forall e :: Damage(e, value) in r <==> e in es && s.HealthOf(e).Some?
    ensures Distinct(es) ==> Distinct(r)
  {
    if es == [] then []
    else
      var rest := DamageEach(s, es[1..], value);
      assert forall e :: e in es <==> e == es[0] || e in es[1..];
      (if s.HealthOf(es[0]).Some? then [Damage(es[0], value)] else []) + rest
  }

  /**
   * MeleeHit's follow-ups: exactly one `Damage(e, value)` for each entity at
   * `target` that has `Health`, none for the others, none for an empty cell.
   */
  function MeleeFollowUps(s: State, target: Vec2, value: u32): (r: seq<Action>)
    ensures forall a :: a in r ==> a.Damage? && a.value == value
    ensures forall e :: Damage(e, value) in r <==>
              e in s.order && s.PositionOf(e) == Some(target) && s.HealthOf(e).Some?
    ensures s.Valid() ==> Distinct(r)
    ensures s.EntitiesAt(target) == [] ==> r == []
  {
    DamageEach(s, s.EntitiesAt(target), value)
  }

  /** 200 when some entity at `target` carries the `Player` ally marker, else -50. */
  function MeleeScore(s: State, target: Vec2): (r: int)
    ensures r == 200 || r == -50
    ensures r == 200 <==> exists e :: e in s.order && s.PositionOf(e) == Some(target) && s.Has(e, PlayerType)
  {
    if exists e :: e in s.EntitiesAt(target) && s.Has(e, PlayerType) then 200 else -50
  }

  // -------------------------------------------------------------- Damage

  /** `u32::saturating_sub`: takes `b` off `a`, stopping at zero. */
  function SaturatingSub(a: u32, b: u32): (r: u32)
    ensures r <= a
    ensures a - r <= b
    ensures r > 0 ==> a - r == b
  {
    if a >= b then a - b else 0
  }

  /**
   * Damage fails, changing nothing, when its entity has no `Health` (a
   * despawned entity has none); otherwise it lowers that health with
   * saturating subtraction and has no follow-ups.
   */
  method ExecuteDamage(w: World, entity: Entity, value: u32) returns (r: ActionResult)
    requires w.Valid()
    modifies w
    ensures w.Valid()
    ensures r.Err? <==> old(w.Snapshot()).HealthOf(entity).None?
    ensures r.Err? ==> w.Snapshot() == old(w.Snapshot())
    ensures r.Ok? ==> (r.value == [] && w.Snapshot() ==
              old(w.Snapshot()).Insert(entity, Health(SaturatingSub(old(w.Snapshot()).HealthOf(entity).value, value))))
  {
    var health := w.Snapshot().HealthOf(entity);
    if health.None? {
      return Err;
    }
    var written := w.InsertComponent(entity, Health(SaturatingSub(health.value, value)));
    r := Ok([]);
  }

  // ------------------------------------------------------------ PickItem

  /** The entities at `p` that carry an `Item`, in store order. */
  function ItemsAt(s: State, p: Vec2): (r: seq<Entity>)
    ensures forall e :: e in r <==> e in s.order && s.PositionOf(e) == Some(p) && s.Has(e, ItemType)
  {
    Filter(s.EntitiesAt(p), (e: Entity) => s.Has(e, ItemType))
  }

  /**
   * Picking up at `p` despawns exactly the live entities at `p` that carry an
   * `Item`; every other entity stays alive with the components it had.
   */
  lemma PickingUpTakesExactlyTheItems(s: State, p: Vec2)
    requires s.Valid()
    ensures var t := s.Despawned(Elements(ItemsAt(s, p)));
            forall e :: t.Live(e) <==> s.Live(e) && !(s.PositionOf(e) == Some(p) && s.Has(e, ItemType))
    ensures var t := s.Despawned(Elements(ItemsAt(s, p)));
            forall e, ty :: t.Live(e) ==> t.Lookup(e, ty) == s.Lookup(e, ty)
  {
  }

  lemma ElementsOfLonger(xs: seq<Entity>, i: nat)
    requires i < |xs|
    ensures Elements(xs[..i + 1]) == Elements(xs[..i]) + {xs[i]}
  {
  }

  /**
   * PickItem fails, changing nothing, when the actor has no `Position`;
   * otherwise it despawns the item-bearing entities at that position, one
   * by one, and has no follow-ups.
   */
  method ExecutePickItem(w: World, entity: Entity) returns (r: ActionResult)
    requires w.Valid()
    modifies w
    ensures w.Valid()
    ensures r.Err? <==> old(w.Snapshot()).PositionOf(entity).None?
    ensures r.Err? ==> w.Snapshot() == old(w.Snapshot())
    ensures r.Ok? ==> (r.value == [] && w.Snapshot() ==
              old(w.Snapshot()).Despawned(Elements(ItemsAt(old(w.Snapshot()), old(w.Snapshot()).PositionOf(entity).value))))
  {
    var before := w.Snapshot();
    var position := before.PositionOf(entity);
    if position.None? {
      return Err;
    }
    var items := ItemsAt(before, position.value);
    DespawnedNothing(before);
    assert Elements(items[..0]) == {};
    for i := 0 to |items|
      invariant w.Valid()
      invariant w.Snapshot() == before.Despawned(Elements(items[..i]))
    {
      w.DespawnEntity(items[i]);
      DespawnedTwice(before, Elements(items[..i]), {items[i]});
      ElementsOfLonger(items, i);
    }
    assert items[..|items|] == items;
    r := Ok([]);
  }

  // ------------------------------------------------------------ dispatch

  /**
   * `Action::score`: Paralyze, Pause and Damage keep the default 0; PlaceBouy
   * and PickItem override it with 0.
   */
  function Score(s: State, a: Action): (r: int)
    ensures !(a.Travel? || a.Shoot? || a.MeleeHit?) ==> r == 0
    ensures PlayerPosition(s).None? && !a.MeleeHit? ==> r == 0
  {
    match a
    case Travel(_, target) => TravelScore(s, target)
    case Shoot(source, dir, dist, _) => ShootScore(s, source, dir, dist)
    case MeleeHit(_, target, _) => MeleeScore(s, target)
    case _ => 0
  }

  /**
   * When executing `a` fails. `template` is what the spawn helper finds,
   * used by PlaceBouy alone.
   */
  predicate Fails(s: State, a: Action, template: Option<Record>) {
    match a
    case Travel(e, _) => s.PositionOf(e).None?
    case Damage(e, _) => s.HealthOf(e).None?
    case PickItem(e) => s.PositionOf(e).None?
    case PlaceBouy(_, _) => template.None?
    case _ => false
  }

  /** The follow-up actions a successful execution returns. */
  function FollowUps(s: State, a: Action): seq<Action> {
    match a
    case MeleeHit(_, target, value) => MeleeFollowUps(s, target, value)
    case Pause(e) => PauseFollowUps(s, e)
    case _ => []
  }

  /**
   * Only MeleeHit and Pause return follow-ups: MeleeHit only Damage actions
   * carrying its own value, Pause only the pausing entity's PickItem.
   */
  lemma FollowUpsComeFromMeleeHitOrPause(s: State, a: Action)
    ensures forall b :: b in FollowUps(s, a) ==>
              (a.MeleeHit? && b.Damage? && b.value == a.value)
              || (a.Pause? && b == PickItem(a.entity))
  {
  }

  /**
   * The world a successful execution of `a` leaves. Travel, Paralyze and
   * Damage touch their one entity only; Shoot and PlaceBouy add one fresh
   * entity and touch nothing else; PickItem only removes entities; MeleeHit
   * and Pause change nothing.
   */
  function Effect(s: State, a: Action, template: Option<Record>): (t: State)
    requires !Fails(s, a, template)
    ensures a.MeleeHit? || a.Pause? ==> t == s
    ensures a.Travel? || a.Damage? ==>
              t.order == s.order && forall x, ty :: x != a.entity ==> t.Lookup(x, ty) == s.Lookup(x, ty)
    ensures a.Paralyze? ==>
              t.order == s.order && forall x, ty :: x != a.subject ==> t.Lookup(x, ty) == s.Lookup(x, ty)
    ensures a.Shoot? || a.PlaceBouy? ==>
              (t.order == s.order + [s.nextId] && forall x, ty :: x != s.nextId ==> t.Lookup(x, ty) == s.Lookup(x, ty))
    ensures a.Travel? ==> t.PositionOf(a.entity) == Some(a.target)
    ensures a.Damage? ==> t.HealthOf(a.entity) == Some(SaturatingSub(s.HealthOf(a.entity).value, a.value))
    ensures a.Paralyze? && s.Live(a.subject) ==> t.Lookup(a.subject, ParalyzedType) == Some(Paralyzed(a.value))
    ensures a.Shoot? ==> (t.Lookup(s.nextId, ProjectileType) ==
              Some(Projectile(a.damage, a.source, ImpactCell(s, a.source, a.dir, a.dist))))
    ensures a.PlaceBouy? ==> (t.Has(s.nextId, PlayerType) && t.HealthOf(s.nextId) == Some(a.health)
              && t.PositionOf(s.nextId) == Some(a.position))
    ensures a.PickItem? ==> forall x :: t.Live(x) <==>
              s.Live(x) && x !in ItemsAt(s, s.PositionOf(a.entity).value)
    ensures s.Valid() && (template.Some? ==> WellTyped(template.value)) ==> t.Valid()
  {
    match a
    case Travel(e, target) => s.Insert(e, Position(target))
    case Shoot(source, dir, dist, damage) =>
      var rec := map[ProjectileType := Projectile(damage, source, ImpactCell(s, source, dir, dist))];
      assert WellTyped(rec);
      s.SpawnedWith(rec)
    case Paralyze(subject, value) => s.Insert(subject, Paralyzed(value))
    case Pause(_) => s
    case PlaceBouy(position, health) => s.SpawnedWith(BuoyRecord(template.value, position, health))
    case MeleeHit(_, _, _) => s
    case Damage(e, value) => s.Insert(e, Health(SaturatingSub(s.HealthOf(e).value, value)))
    case PickItem(e) => s.Despawned(Elements(ItemsAt(s, s.PositionOf(e).value)))
  }

  /**
   * `Action::execute`. A failed execution leaves the world exactly as it
   * was; a successful one leaves the world `Effect` describes and returns
   * the variant's follow-ups.
   */
  method Execute(w: World, a: Action, template: Option<Record>) returns (r: ActionResult)
    requires w.Valid()
    requires template.Some? ==> WellTyped(template.value)
    modifies w
    ensures w.Valid()
    ensures r.Err? <==> Fails(old(w.Snapshot()), a, template)
    ensures r.Err? ==> w.Snapshot() == old(w.Snapshot())
    ensures r.Ok? ==> r.value == FollowUps(old(w.Snapshot()), a)
    ensures r.Ok? ==> w.Snapshot() == Effect(old(w.Snapshot()), a, template)
  {
    match a
    case Travel(e, target) =>
      r := ExecuteTravel(w, e, target);
    case Shoot(source, dir, dist, damage) =>
      r := ExecuteShoot(w, source, dir, dist, damage);
    case Paralyze(subject, value) =>
      r := ExecuteParalyze(w, subject, value);
    case Pause(e) =>
      r := Ok(PauseFollowUps(w.Snapshot(), e));
    case PlaceBouy(position, health) =>
      r := ExecutePlaceBouy(w, position, health, template);
    case MeleeHit(_, target, value) =>
      r := Ok(MeleeFollowUps(w.Snapshot(), target, value));
    case Damage(e, value) =>
      r := ExecuteDamage(w, e, value);
    case PickItem(e) =>
      r := ExecutePickItem(w, e);
  }
}
