/**
 * The components an entity can carry. Each component struct of the game is
 * one constructor of `Component`; `ComponentType` is its type tag, the key
 * under which the entity store files a component (one per type and entity).
 */
module Components {
  import opened Vectors

  datatype Option<T> = None | Some(value: T)

  const U32_LIMIT: int := 0x1_0000_0000

  /** Rust's `u32`. */
  type u32 = n: nat | n < U32_LIMIT

  /** Action points of an actor: `max`, and `current`, which data may omit. */
  datatype AP = AP(max: u32, current: u32)

  /** An ability descriptor. abilities.rs is not part of this model. */
  datatype Ability = Ability(descriptor: string)

  /** What an item is. items.rs is not part of this model. */
  datatype ItemKind = ItemKind(tag: string)

  datatype Component =
    // deserialized from content data
    | Actor(abilities: seq<Ability>, ap: AP)
    | Fixture
    | Health(hp: u32)
    | Item(kind: ItemKind)
    | Obstacle
    | Tile
    | ViewBlocker
    | Vortex
    // inserted by game code
    | Name(name: string)
    | Player                                  // an ally, or something the player spawned
    | PlayerCharacter(activeAbility: nat)     // the one entity the player controls
    | Paralyzed(turns: u32)
    | Projectile(damage: u32, source: Vec2, target: Vec2)
    | Position(at: Vec2)
    | Spawner(spawnTarget: string, countdown: u32)

  datatype ComponentType =
    | ActorType | FixtureType | HealthType | ItemType | ObstacleType | TileType
    | ViewBlockerType | VortexType | NameType | PlayerType | PlayerCharacterType
    | ParalyzedType | ProjectileType | PositionType | SpawnerType

  /** The Rust type of a component value. */
  function TypeOf(c: Component): ComponentType {
    match c
    case Actor(_, _) => ActorType
    case Fixture => FixtureType
    case Health(_) => HealthType
    case Item(_) => ItemType
    case Obstacle => ObstacleType
    case Tile => TileType
    case ViewBlocker => ViewBlockerType
    case Vortex => VortexType
    case Name(_) => NameType
    case Player => PlayerType
    case PlayerCharacter(_) => PlayerCharacterType
    case Paralyzed(_) => ParalyzedType
    case Projectile(_, _, _) => ProjectileType
    case Position(_) => PositionType
    case Spawner(_, _) => SpawnerType
  }

  predicate IsU32(n: int) {
    0 <= n < U32_LIMIT
  }

  /**
   * Deserialising an `AP` from the integer fields of a mapping: `max` is
   * required, `current` falls back to 0 when absent, both must fit a u32,
   * and any other field is ignored.
   */
  function DecodeAP(fields: map<string, int>): (r: Option<AP>)
    ensures r.Some? <==> "max" in fields && IsU32(fields["max"])
                         && ("current" in fields ==> IsU32(fields["current"]))
    ensures r.Some? ==> r.value.max == fields["max"]
    ensures r.Some? && "current" !in fields ==> r.value.current == 0
    ensures r.Some? && "current" in fields ==> r.value.current == fields["current"]
  {
    if "max" !in fields || !IsU32(fields["max"]) then None
    else if "current" !in fields then Some(AP(fields["max"], 0))
    else if IsU32(fields["current"]) then Some(AP(fields["max"], fields["current"]))
    else None
  }
}
