/** The records of the editor's data model: a piece of furniture placed in
    the room and an AI layout recommendation. Coordinates, angles and sizes
    are `real`s (metres and radians); no floating-point rounding is modelled. */
module Room {
  import opened Wrappers

  /** A point in the room; `y` is the height above the floor. */
  datatype Position = Position(x: real, y: real, z: real)

  datatype Dimensions = Dimensions(width: real, height: real, depth: real)

  /** A placed piece of furniture. `furnitureType` is the source's `type`
      field; an absent or empty `id` is the empty string. */
  datatype FurnitureItem = FurnitureItem(
    id: string,
    name: string,
    furnitureType: string,
    category: string,
    position: Position,
    rotation: real,
    dimensions: Dimensions,
    image: Option<string>)

  /** A suggested layout: a whole furniture list plus its description. */
  datatype Recommendation = Recommendation(
    id: string,
    title: string,
    description: string,
    furniture: seq<FurnitureItem>,
    tags: seq<string>)
}
