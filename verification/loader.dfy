/**
 * Loading components from content data (`insert_data_components` and
 * `insert_single`): a YAML mapping from component names to component data is
 * walked entry by entry, and each entry is decoded and inserted on one
 * entity. An unknown name, or data that does not decode, aborts the program
 * (a Rust panic); here that is the outcome returned, with the world as the
 * panic leaves it.
 */
module ComponentLoader {
  import opened Components
  import opened Storage

  /** A YAML value that is passed on without being looked into. */
  datatype Payload = Payload(text: string)

  /** A mapping entry; `key` is `None` when the YAML key is not a string. */
  datatype Entry = Entry(key: Option<string>, data: Payload)

  datatype YamlValue = Mapping(entries: seq<Entry>) | NotMapping(data: Payload)

  /**
   * Decoding data as the component type the name selects
   * (`serde_yaml::from_value::<T>`), which the model does not look into;
   * `None` is a decoding failure.
   */
  type Decoder = (ComponentType, Payload) -> Option<Component>

  /** A decoder yields, when it succeeds, a value of the type it was asked for. */
  ghost predicate DecodesAsAsked(decode: Decoder) {
    forall t, p :: decode(t, p).Some? ==> TypeOf(decode(t, p).value) == t
  }

  datatype LoadOutcome =
    | Completed
    | UnknownComponent(name: string)                // the panic on a name not accepted
    | ParseFailure(name: string, data: Payload)     // the panic on data that does not decode

  datatype Loaded = Loaded(state: State, outcome: LoadOutcome)

  predicate IsDataType(t: ComponentType) {
    t in {ActorType, FixtureType, HealthType, ItemType, ObstacleType, TileType, ViewBlockerType, VortexType}
  }

  /** The name content data uses for a data component type. */
  function DataTypeName(t: ComponentType): string
    requires IsDataType(t)
  {
    match t
    case ActorType => "Actor"
    case FixtureType => "Fixture"
    case HealthType => "Health"
    case ItemType => "Item"
    case ObstacleType => "Obstacle"
    case TileType => "Tile"
    case ViewBlockerType => "ViewBlocker"
    case VortexType => "Vortex"
  }

  /**
   * The name dispatch: exactly the eight names Actor, Fixture, Health, Item,
   * Obstacle, Tile, ViewBlocker and Vortex are accepted, each selecting the
   * component type of that name.
   */
  function DataType(name: string): (r: Option<ComponentType>)
    ensures r.Some? <==> name in {"Actor", "Fixture", "Health", "Item", "Obstacle", "Tile", "ViewBlocker", "Vortex"}
    ensures r.Some? ==> IsDataType(r.value) && DataTypeName(r.value) == name
  {
    match name
    case "Actor" => Some(ActorType)
    case "Fixture" => Some(FixtureType)
    case "Health" => Some(HealthType)
    case "Item" => Some(ItemType)
    case "Obstacle" => Some(ObstacleType)
    case "Tile" => Some(TileType)
    case "ViewBlocker" => Some(ViewBlockerType)
    case "Vortex" => Some(VortexType)
    case _ => None
  }

  /** Every data component type is selected by its own name. */
  lemma DataTypeOfName(t: ComponentType)
    requires IsDataType(t)
    ensures DataType(DataTypeName(t)) == Some(t)
  {
  }

  /**
   * What loading `entries` onto `entity` does: entries with a non-string key
   * are skipped, the others are decoded and inserted in order, until an
   * unknown name or a decoding failure stops the walk. Only `entity` is
   * touched, and nothing at all when it is dead.
   */
  function LoadEntries(s: State, entity: Entity, entries: seq<Entry>, decode: Decoder): (r: Loaded)
    decreases |entries|
    ensures r.state.order == s.order && r.state.nextId == s.nextId
    ensures forall x, ty :: x != entity ==> r.state.Lookup(x, ty) == s.Lookup(x, ty)
    ensures forall x :: r.state.Live(x) <==> s.Live(x)
    ensures !s.Live(entity) ==> r.state == s
    ensures s.Valid() ==> r.state.Valid()
  {
    if entries == [] then Loaded(s, Completed)
    else
      var entry := entries[0];
      match entry.key
      case None => LoadEntries(s, entity, entries[1..], decode)
      case Some(name) =>
        match DataType(name)
        case None => Loaded(s, UnknownComponent(name))
        case Some(t) =>
          match decode(t, entry.data)
          case None => Loaded(s, ParseFailure(name, entry.data))
          case Some(c) => LoadEntries(s.Insert(entity, c), entity, entries[1..], decode)
  }

  /** A value that is not a mapping loads nothing. */
  function Load(s: State, entity: Entity, value: YamlValue, decode: Decoder): (r: Loaded)
    ensures value.NotMapping? ==> r == Loaded(s, Completed)
  {
    match value
    case NotMapping(_) => Loaded(s, Completed)
    case Mapping(entries) => LoadEntries(s, entity, entries, decode)
  }

  /** Loading two runs of entries is loading the first, then, if it completed, the second. */
  lemma {:induction false} LoadEntriesAppend(s: State, entity: Entity, front: seq<Entry>, back: seq<Entry>, decode: Decoder)
    ensures var first := LoadEntries(s, entity, front, decode);
            LoadEntries(s, entity, front + back, decode) ==
              if first.outcome == Completed then LoadEntries(first.state, entity, back, decode) else first
    decreases |front|
  {
    if front == [] {
      assert front + back == back;
    } else {
      assert (front + back)[0] == front[0];
      assert (front + back)[1..] == front[1..] + back;
      var entry := front[0];
      match entry.key
      case None =>
        LoadEntriesAppend(s, entity, front[1..], back, decode);
      case Some(name) =>
        match DataType(name)
        case None =>
        case Some(t) =>
          match decode(t, entry.data)
          case None =>
          case Some(c) =>
            LoadEntriesAppend(s.Insert(entity, c), entity, front[1..], back, decode);
    }
  }

  /** An entry whose key is not a string is skipped, wherever it stands. */
  lemma NonStringKeySkipped(s: State, entity: Entity, front: seq<Entry>, data: Payload, back: seq<Entry>, decode: Decoder)
    ensures LoadEntries(s, entity, front + [Entry(None, data)] + back, decode) ==
            LoadEntries(s, entity, front + back, decode)
  {
    assert front + [Entry(None, data)] + back == front + ([Entry(None, data)] + back);
    LoadEntriesAppend(s, entity, front, [Entry(None, data)] + back, decode);
    LoadEntriesAppend(s, entity, front, back, decode);
    assert ([Entry(None, data)] + back)[1..] == back;
  }

  /**
   * An unknown name stops the load with a panic; the entries before it have
   * already been inserted and are not rolled back.
   */
  lemma UnknownNamePanicsAfterEarlierEntries(s: State, entity: Entity, front: seq<Entry>, name: string,
                                             data: Payload, back: seq<Entry>, decode: Decoder)
    requires DataType(name).None?
    requires LoadEntries(s, entity, front, decode).outcome == Completed
    ensures LoadEntries(s, entity, front + [Entry(Some(name), data)] + back, decode) ==
            Loaded(LoadEntries(s, entity, front, decode).state, UnknownComponent(name))
  {
    assert front + [Entry(Some(name), data)] + back == front + ([Entry(Some(name), data)] + back);
    LoadEntriesAppend(s, entity, front, [Entry(Some(name), data)] + back, decode);
  }

  /** Data that does not decode for a known name stops the load with a panic, likewise. */
  lemma ParseFailurePanicsAfterEarlierEntries(s: State, entity: Entity, front: seq<Entry>, name: string,
                                              data: Payload, back: seq<Entry>, decode: Decoder)
    requires DataType(name).Some? && decode(DataType(name).value, data).None?
    requires LoadEntries(s, entity, front, decode).outcome == Completed
    ensures LoadEntries(s, entity, front + [Entry(Some(name), data)] + back, decode) ==
            Loaded(LoadEntries(s, entity, front, decode).state, ParseFailure(name, data))
  {
    assert front + [Entry(Some(name), data)] + back == front + ([Entry(Some(name), data)] + back);
    LoadEntriesAppend(s, entity, front, [Entry(Some(name), data)] + back, decode);
  }

  /**
   * An accepted name whose data decodes inserts a component of the type of
   * that name on the entity, leaving its other components as they were.
   */
  lemma AcceptedNameInsertsItsType(s: State, entity: Entity, name: string, data: Payload, decode: Decoder)
    requires DecodesAsAsked(decode)
    requires s.Live(entity)
    requires DataType(name).Some? && decode(DataType(name).value, data).Some?
    ensures var r := LoadEntries(s, entity, [Entry(Some(name), data)], decode);
            && r.outcome == Completed
            && r.state.Lookup(entity, DataType(name).value) == decode(DataType(name).value, data)
            && forall ty :: ty != DataType(name).value ==> r.state.Lookup(entity, ty) == s.Lookup(entity, ty)
  {
  }

  /** `insert_single`: decode `data` as type `t` and insert it; `false` is the parse panic. */
  method InsertSingle(w: World, entity: Entity, t: ComponentType, data: Payload, decode: Decoder)
      returns (parsed: bool)
    requires w.Valid()
    modifies w
    ensures w.Valid()
    ensures parsed <==> decode(t, data).Some?
    ensures !parsed ==> w.Snapshot() == old(w.Snapshot())
    ensures parsed ==> w.Snapshot() == old(w.Snapshot()).Insert(entity, decode(t, data).value)
  {
    var component := decode(t, data);
    if component.None? {
      return false;
    }
    var inserted := w.InsertComponent(entity, component.value);
    parsed := true;
  }

  /**
   * `insert_data_components`: the world it leaves and the outcome it
   * reports are those `Load` describes.
   */
  method InsertDataComponents(w: World, entity: Entity, value: YamlValue, decode: Decoder)
      returns (outcome: LoadOutcome)
    requires w.Valid()
    modifies w
    ensures w.Valid()
    ensures Loaded(w.Snapshot(), outcome) == Load(old(w.Snapshot()), entity, value, decode)
  {
    if value.NotMapping? {
      return Completed;
    }
    var entries := value.entries;
    ghost var goal := LoadEntries(w.Snapshot(), entity, entries, decode);
    for i := 0 to |entries|
      invariant w.Valid()
      invariant LoadEntries(w.Snapshot(), entity, entries[i..], decode) == goal
    {
      var entry := entries[i];
      assert entries[i..][0] == entry && entries[i..][1..] == entries[i + 1..];
      if entry.key.None? {
        continue;
      }
      var name := entry.key.value;
      var t := DataType(name);
      if t.None? {
        return UnknownComponent(name);
      }
      var parsed := InsertSingle(w, entity, t.value, entry.data, decode);
      if !parsed {
        return ParseFailure(name, entry.data);
      }
    }
    assert entries[|entries|..] == [];
    outcome := Completed;
  }
}
