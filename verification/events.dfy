/**
 * What an executed action tells rendering and audio. events.rs is not part
 * of this model: only the variants the actions emit are declared.
 */
module Events {
  import opened Vectors
  import opened Components
  import opened Storage

  datatype ActionEvent =
    | Travel(entity: Entity, target: Vec2)
    | Melee(entity: Entity, target: Vec2, value: u32)
    | Other
}
