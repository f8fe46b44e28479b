/** Three-component vectors over exact reals, standing in for three.js `Vector3`. */
module Vectors {
  datatype Vec3 = Vec3(x: real, y: real, z: real)

  /** A freshly constructed `new THREE.Vector3()`. */
  const Zero: Vec3 := Vec3(0.0, 0.0, 0.0)

  /** `a.add(b)`, returning the new value instead of updating `a`. */
  function Add(a: Vec3, b: Vec3): Vec3 {
    Vec3(a.x + b.x, a.y + b.y, a.z + b.z)
  }

  /** `a.multiplyScalar(d)`, returning the new value. */
  function Scale(a: Vec3, d: real): Vec3 {
    Vec3(a.x * d, a.y * d, a.z * d)
  }

  /** Component-wise difference, used only to state properties. */
  function Sub(a: Vec3, b: Vec3): Vec3 {
    Vec3(a.x - b.x, a.y - b.y, a.z - b.z)
  }

  lemma SubAddCancel(p: Vec3, s: Vec3)
    ensures Sub(Add(p, s), p) == s
  {
  }
}
