/** The messages the cone visualiser consumes and produces: the perception
    node's cone batches and the visualisation markers sent to Foxglove. */
module ConeMessages {

  /** A message timestamp, copied verbatim from the cone batch to every marker. */
  datatype Stamp = Stamp(sec: int, nanosec: nat)

  /** A detected cone in the lidar frame; only its planar position is consumed. */
  datatype Cone = Cone(x: real, y: real)

  /** One cone batch: a stamp and five ordered cone lists, one per category. */
  datatype ConeArray = ConeArray(
    stamp: Stamp,
    blueCones: seq<Cone>,
    yellowCones: seq<Cone>,
    orangeCones: seq<Cone>,
    bigOrangeCones: seq<Cone>,
    unknownColorCones: seq<Cone>)

  datatype Category = Blue | Yellow | Orange | BigOrange | Unknown

  /** One category's cones of a batch. */
  datatype Group = Group(category: Category, cones: seq<Cone>)

  newtype byte = x: int | 0 <= x < 256

  /** A colour as a byte triple; the message scales each byte into [0, 1]. */
  datatype Rgb = Rgb(r: byte, g: byte, b: byte)

  datatype Point = Point(x: real, y: real, z: real)

  /** Marker shapes used here: ARROW is the message default, CUBE marks a cone. */
  datatype Shape = Arrow | Cube

  datatype Action = Add | Delete

  /** The fields of a visualisation marker that the node sets, and those a
      DELETE marker leaves at their default; the remaining message fields
      (lifetime, frame locking, the rest of the orientation, points, text,
      mesh) are not modelled. */
  datatype Marker = Marker(
    frameId: string,
    stamp: Stamp,
    ns: string,
    id: int,
    shape: Shape,
    action: Action,
    position: Point,
    orientationW: real,
    scale: real,
    colour: Rgb,
    alpha: real)

  const FrameId: string := "hesai_lidar"
  const Namespace: string := "cone_markers"
  /** Height at which every cone marker is drawn. */
  const ConeZ: real := -0.7
  /** Edge length of the cube drawn for a cone. */
  const ConeSize: real := 0.2

  function ConesOf(msg: ConeArray, c: Category): seq<Cone>
  {
    match c
    case Blue => msg.blueCones
    case Yellow => msg.yellowCones
    case Orange => msg.orangeCones
    case BigOrange => msg.bigOrangeCones
    case Unknown => msg.unknownColorCones
  }

  /** The categories of a batch in the order they are turned into markers:
      blue, yellow, orange, big orange, unknown. */
  function Groups(msg: ConeArray): seq<Group>
  {
    [Group(Blue, msg.blueCones), Group(Yellow, msg.yellowCones), Group(Orange, msg.orangeCones),
     Group(BigOrange, msg.bigOrangeCones), Group(Unknown, msg.unknownColorCones)]
  }

  /** The position of a category in that order. */
  function Rank(c: Category): nat
  {
    match c
    case Blue => 0
    case Yellow => 1
    case Orange => 2
    case BigOrange => 3
    case Unknown => 4
  }

  /** The fixed display colour of each category. */
  function ColourOf(c: Category): Rgb
  {
    match c
    case Blue => Rgb(0, 0, 255)
    case Yellow => Rgb(255, 255, 0)
    case Orange => Rgb(255, 165, 0)
    case BigOrange => Rgb(255, 69, 0)
    case Unknown => Rgb(128, 128, 128)
  }
}
