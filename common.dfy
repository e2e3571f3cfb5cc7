/** Value types shared by the control core: optional values, results of
    operations that throw in the Java program, and 2D/3D vectors over the reals. */
module Common {

  /** `java.util.Optional` and nullable references. */
  datatype Option<T> = None | Some(value: T)

  /** The Java exceptions that the core throws on purpose. */
  datatype Error =
    | IllegalArgument      // IllegalArgumentException
    | IllegalState         // IllegalStateException
    | NoSuchElement        // LinkedList.pop on an empty list
    | IndexOutOfRange      // Vector3.get outside 0..2
    | NullReference        // a method called on a null reference

  /** The outcome of an operation that either returns a value or throws. */
  datatype Result<T> = Ok(value: T) | Err(error: Error)

  datatype Vector3 = Vector3(x: real, y: real, z: real)

  datatype Vector2 = Vector2(x: real, y: real)

  function Abs(r: real): real
  {
    if r < 0.0 then -r else r
  }

  function Minus(u: Vector3, v: Vector3): Vector3
  {
    Vector3(u.x - v.x, u.y - v.y, u.z - v.z)
  }

  function Plus2(u: Vector2, v: Vector2): Vector2
  {
    Vector2(u.x + v.x, u.y + v.y)
  }

  /** Drops the height (z) component. */
  function Flatten(v: Vector3): Vector2
  {
    Vector2(v.x, v.y)
  }

  function Dot(u: Vector3, v: Vector3): real
  {
    u.x * v.x + u.y * v.y + u.z * v.z
  }

  function Cross(u: Vector3, v: Vector3): Vector3
  {
    Vector3(u.y * v.z - u.z * v.y, u.z * v.x - u.x * v.z, u.x * v.y - u.y * v.x)
  }

  function Scale(v: Vector3, k: real): Vector3
  {
    Vector3(v.x * k, v.y * k, v.z * k)
  }

  /** The zero vector: the only vector whose Euclidean norm is 0. */
  const Zero := Vector3(0.0, 0.0, 0.0)

  /** Real multiplication commutes; stated as a lemma so that a proof can
      name the exact product it needs turned around. */
  lemma MulCommutes(x: real, y: real)
    ensures x * y == y * x
  {
  }
}
