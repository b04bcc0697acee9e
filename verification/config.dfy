/** Construction-time configuration of a character: the option defaults and
    the descriptors the constructor hands to the physics engine. */
module Config {
  import opened Vectors

  /** A numeric option as the constructor receives it: absent (undefined or
      null) or some number. */
  datatype Setting = Unset | Given(value: real)

  /** The optional starting position; any object given is truthy. */
  datatype Place = NoPlace | At(point: Vec3)

  datatype Options = Options(
    radius: Setting,
    height: Setting,
    position: Place,
    maxSpeed: Setting,
    jumpForce: Setting,
    rotationSpeed: Setting)

  /** The parameters a controller keeps for its lifetime. */
  datatype Params = Params(
    radius: real,
    height: real,
    position: Vec3,
    maxSpeed: real,
    jumpForce: real,
    rotationSpeed: real)

  const DefaultRadius: real := 0.5
  const DefaultHeight: real := 2.0
  const DefaultPosition := Vec3(0.0, 3.0, 0.0)
  const DefaultMaxSpeed: real := 5.0
  const DefaultJumpForce: real := 10.0
  const DefaultRotationSpeed: real := 5.0

  const Defaults := Params(DefaultRadius, DefaultHeight, DefaultPosition,
                           DefaultMaxSpeed, DefaultJumpForce, DefaultRotationSpeed)

  const NoOptions := Options(Unset, Unset, NoPlace, Unset, Unset, Unset)

  /** JavaScript's `option || fallback` on a number: the fallback replaces
      every falsy value, which includes a given 0 as well as a missing one. */
  function OrDefault(s: Setting, fallback: real): (v: real)
    ensures s.Given? && s.value != 0.0 ==> v == s.value
    ensures !s.Given? || s.value == 0.0 ==> v == fallback
  {
    match s
    case Given(n) => if n != 0.0 then n else fallback
    case Unset => fallback
  }

  /** `position || fallback`: any given position object is truthy and kept. */
  function PlaceOr(p: Place, fallback: Vec3): (v: Vec3)
    ensures p.At? ==> v == p.point
    ensures p.NoPlace? ==> v == fallback
  {
    match p
    case At(point) => point
    case NoPlace => fallback
  }

  /** The constructor's parameter block. Nothing is validated: a negative
      radius, or a height too small for the radius, is kept as given. */
  function Configure(o: Options): (p: Params)
    ensures p.radius != 0.0 && p.height != 0.0 && p.maxSpeed != 0.0
    ensures p.jumpForce != 0.0 && p.rotationSpeed != 0.0
    ensures o.radius.Given? && o.radius.value != 0.0 ==> p.radius == o.radius.value
    ensures o.height.Given? && o.height.value != 0.0 ==> p.height == o.height.value
    ensures o.maxSpeed.Given? && o.maxSpeed.value != 0.0 ==> p.maxSpeed == o.maxSpeed.value
    ensures o.jumpForce.Given? && o.jumpForce.value != 0.0 ==> p.jumpForce == o.jumpForce.value
    ensures o.rotationSpeed.Given? && o.rotationSpeed.value != 0.0 ==> p.rotationSpeed == o.rotationSpeed.value
    ensures o.position.At? ==> p.position == o.position.point
    ensures !o.radius.Given? || o.radius.value == 0.0 ==> p.radius == DefaultRadius
    ensures !o.height.Given? || o.height.value == 0.0 ==> p.height == DefaultHeight
    ensures !o.maxSpeed.Given? || o.maxSpeed.value == 0.0 ==> p.maxSpeed == DefaultMaxSpeed
    ensures !o.jumpForce.Given? || o.jumpForce.value == 0.0 ==> p.jumpForce == DefaultJumpForce
    ensures !o.rotationSpeed.Given? || o.rotationSpeed.value == 0.0 ==> p.rotationSpeed == DefaultRotationSpeed
    ensures o.position.NoPlace? ==> p.position == DefaultPosition
  {
    Params(
      OrDefault(o.radius, DefaultRadius),
      OrDefault(o.height, DefaultHeight),
      PlaceOr(o.position, DefaultPosition),
      OrDefault(o.maxSpeed, DefaultMaxSpeed),
      OrDefault(o.jumpForce, DefaultJumpForce),
      OrDefault(o.rotationSpeed, DefaultRotationSpeed))
  }

  /** Options that are missing or zero leave every parameter at its default. */
  lemma FalsyOptionsGiveDefaults(o: Options)
    requires o.position.NoPlace?
    requires o.radius in {Unset, Given(0.0)} && o.height in {Unset, Given(0.0)}
    requires o.maxSpeed in {Unset, Given(0.0)} && o.jumpForce in {Unset, Given(0.0)}
    requires o.rotationSpeed in {Unset, Given(0.0)}
    ensures Configure(o) == Defaults
  {
  }

  /** Rigid-body descriptor: dynamic body at the start position, damped, with
      rotations locked so the capsule cannot tip over. */
  datatype BodyDesc = BodyDesc(
    translation: Vec3,
    linearDamping: real,
    angularDamping: real,
    rotationsLocked: bool)

  /** Capsule collider descriptor: half the length of the cylindrical part,
      the cap radius, and the contact material. */
  datatype ColliderDesc = ColliderDesc(
    halfHeight: real,
    radius: real,
    friction: real,
    restitution: real)

  function BodyDescFor(p: Params): (d: BodyDesc)
    ensures d.translation == p.position && d.rotationsLocked
  {
    BodyDesc(p.position, 0.5, 1.0, true)
  }

  /** The capsule collider: its cylinder plus the two hemispherical caps
      spans exactly the configured height, and its half-height is positive
      only when the height exceeds the diameter. */
  function ColliderFor(p: Params): (c: ColliderDesc)
    ensures c.radius == p.radius
    ensures 2.0 * c.halfHeight + 2.0 * c.radius == p.height
    ensures c.halfHeight > 0.0 <==> p.height > 2.0 * p.radius
    ensures c.friction == 0.7 && c.restitution == 0.2
  {
    var capsuleHeight := p.height - p.radius * 2.0;
    ColliderDesc(capsuleHeight / 2.0, p.radius, 0.7, 0.2)
  }

  /** The defaults give a 1-unit cylinder between two 0.5 caps; the
      configuration the demo passes (radius 0.5, height 1.75) still leaves
      a positive cylinder, while a height below the diameter is accepted
      and yields a negative half-height. */
  lemma ColliderExamples()
    ensures ColliderFor(Defaults).halfHeight == 0.5
    ensures ColliderFor(Configure(NoOptions.(height := Given(1.75)))).halfHeight == 0.375
    ensures ColliderFor(Configure(NoOptions.(height := Given(0.5)))).halfHeight < 0.0
  {
  }
}
