/** Exact-arithmetic stand-ins for the three.js vector types the player
    controller uses, and the camera object it writes to. */
module Geometry {

  /** A screen point or a 2D offset (touch coordinates, joystick direction). */
  datatype Vec2 = Vec2(x: real, y: real) {
    function Minus(o: Vec2): Vec2 { Vec2(x - o.x, y - o.y) }
    function Dot(o: Vec2): real { x * o.x + y * o.y }
    function Norm2(): real { Dot(this) }
  }

  /** A 3D vector over the reals; no rounding, no overflow. */
  datatype Vec3 = Vec3(x: real, y: real, z: real) {
    function Plus(o: Vec3): Vec3 { Vec3(x + o.x, y + o.y, z + o.z) }
    function Minus(o: Vec3): Vec3 { Vec3(x - o.x, y - o.y, z - o.z) }
    function Times(k: real): Vec3 { Vec3(k * x, k * y, k * z) }
    function Dot(o: Vec3): real { x * o.x + y * o.y + z * o.z }
    function Norm2(): real { Dot(this) }
  }

  const Origin2: Vec2 := Vec2(0.0, 0.0)
  const Origin3: Vec3 := Vec3(0.0, 0.0, 0.0)

  predicate IsUnit(n: Vec3) { n.Norm2() == 1.0 }

  function Abs(r: real): real { if r < 0.0 then -r else r }

  function Min(a: real, b: real): real { if a <= b then a else b }

  /** The rendering layer's camera: the controller only writes its position
      and its Euler rotation (x = pitch, y = yaw, z = roll). */
  class Camera {
    var position: Vec3
    var rotation: Vec3

    constructor (position: Vec3, rotation: Vec3)
      ensures this.position == position && this.rotation == rotation
    {
      this.position := position;
      this.rotation := rotation;
    }
  }
}
