/**
 * Values exchanged between Rapier's debug-render pipeline, the Bevy
 * debug-render backend and Bevy's gizmo line drawing.
 *
 * Floating-point numbers (`f32`, Rapier's `Real`) are modelled as `real`.
 */
module DebugRenderTypes {

  datatype Option<+T> = None | Some(value: T)

  /** Bevy's `Entity`: an opaque identity, here its 64-bit encoding. */
  type Entity = nat

  const U64_LIMIT: nat := 0x1_0000_0000_0000_0000
  const U128_LIMIT: nat := 0x1_0000_0000_0000_0000_0000_0000_0000_0000

  /** Rapier's `u128` user-data slot of a collider. */
  type UserData = x: nat | x < U128_LIMIT

  /** A Rapier collider, as far as the backend looks at it. */
  datatype RapierCollider = RapierCollider(userData: UserData)

  type ColliderHandle = nat

  /**
   * The identity a collider's user data designates: `user_data as u64`
   * keeps the low 64 bits, and `Entity::from_bits` reads them unchanged.
   */
  function EntityOf(userData: UserData): (e: Entity)
    ensures e < U64_LIMIT
    ensures userData < U64_LIMIT ==> e == userData
    ensures (userData - e) % U64_LIMIT == 0
  {
    userData % U64_LIMIT
  }

  /**
   * Rapier's `DebugRenderObject`: the item a line belongs to. Only a
   * collider carries a handle that the backend resolves.
   */
  datatype DebugRenderObject =
    | RigidBody(bodyHandle: nat)
    | Collider(handle: ColliderHandle)
    | ImpulseJoint(jointHandle: nat)
    | MultibodyJoint(multibodyHandle: nat)
    | ContactPair(collider1: ColliderHandle, collider2: ColliderHandle)

  /** Rapier's `[f32; 4]` colour: hue, saturation, lightness, alpha. */
  datatype DebugColor = DebugColor(hue: real, saturation: real, lightness: real, alpha: real)

  /** Bevy's `Color`, in the two representations the backend meets. */
  datatype Color =
    | Rgba(red: real, green: real, blue: real, alpha: real)
    | Hsla(hue: real, saturation: real, lightness: real, alpha: real)

  /** `Color::hsla`: the gizmo colour built from a Rapier colour. */
  function GizmoColor(c: DebugColor): (r: Color)
    ensures r.Hsla?
    ensures DebugColor(r.hue, r.saturation, r.lightness, r.alpha) == c
  {
    Hsla(c.hue, c.saturation, c.lightness, c.alpha)
  }

  /** Rapier points in the 2D and 3D builds; Bevy's `Vec3`. */
  datatype Point2 = Point2(x: real, y: real)
  datatype Point3 = Point3(x: real, y: real, z: real)
  datatype Vec3 = Vec3(x: real, y: real, z: real)

  /**
   * A segment as Rapier hands it to `draw_line`. The build chooses one
   * dimension; the model tags each segment with it.
   */
  datatype Segment =
    | Segment2(a2: Point2, b2: Point2)
    | Segment3(a3: Point3, b3: Point3)

  /** One `draw_line(object, a, b, color)` invocation made by Rapier. */
  datatype DrawCall = DrawCall(obj: DebugRenderObject, segment: Segment, color: DebugColor)

  /** One line recorded by Bevy's gizmos. */
  datatype GizmoLine = GizmoLine(start: Vec3, end: Vec3, color: Color)

  /**
   * Rapier's `DebugRenderStyle`, restricted to the axes length this
   * backend rescales and a few of the fields it must leave alone.
   */
  datatype DebugRenderStyle = DebugRenderStyle(
    rigidBodyAxesLength: real,
    contactNormalLength: real,
    subdivisions: nat,
    borderSubdivisions: nat)

  /** Rapier's `DebugRenderMode` bit flags. */
  datatype DebugRenderMode = DebugRenderMode(bits: bv32)
}
