/** Two- and four-component vectors (glm::vec2, glm::vec4) over the reals, and the
    transcendental functions the tessellator calls.  cos, sin and sqrt are not
    computed: they travel as a value of RealMath, and Lawful states the only facts
    about them the proofs rely on. */
module Vectors {

  datatype Vec2 = Vec2(x: real, y: real)

  /** glm::vec4; the text quads keep position in (x, y) and texture coordinates in (z, w). */
  datatype Vec4 = Vec4(x: real, y: real, z: real, w: real)

  function Add(a: Vec2, b: Vec2): Vec2 { Vec2(a.x + b.x, a.y + b.y) }

  function Sub(a: Vec2, b: Vec2): Vec2 { Vec2(a.x - b.x, a.y - b.y) }

  function Scale(a: Vec2, k: real): Vec2 { Vec2(a.x * k, a.y * k) }

  function Dot(a: Vec2, b: Vec2): real { a.x * b.x + a.y * b.y }

  /** z-component of the 3D cross product; zero exactly when a and b are parallel. */
  function Cross(a: Vec2, b: Vec2): real { a.x * b.y - a.y * b.x }

  function NormSq(a: Vec2): real { a.x * a.x + a.y * a.y }

  /** M_PI. */
  const PI: real := 3.14159265358979323846

  /** std::cos, std::sin and the square root behind glm::length. */
  datatype RealMath = RealMath(cos: real -> real, sin: real -> real, sqrt: real -> real)

  ghost predicate Lawful(m: RealMath)
  {
    && (forall a :: m.cos(a) * m.cos(a) + m.sin(a) * m.sin(a) == 1.0)
    && (forall s :: 0.0 <= s ==> 0.0 <= m.sqrt(s) && m.sqrt(s) * m.sqrt(s) == s)
  }

  lemma NormSqNonNegative(v: Vec2)
    ensures NormSq(v) >= 0.0
  {
  }

  /** glm::length. */
  function Length(m: RealMath, v: Vec2): real { m.sqrt(NormSq(v)) }
}
