/** Shared vocabulary of the model: optional values, the exceptions the C# code
    can raise (as error values), and the vector, quaternion and matrix values
    that the game code passes around. Single- and double-precision floats are
    modelled as reals; quaternion interpolation and matrix construction are kept
    as symbolic terms, because their numerics lie outside this model. */
module Common {

  datatype Option<T> = None | Some(value: T)

  /** The exceptions that the modelled C# code can throw. */
  datatype Error =
    | FormatError(what: string)       // System.FormatException
    | IndexOutOfRange                 // IndexOutOfRangeException / ArgumentOutOfRangeException
    | NullReference                   // NullReferenceException
    | Overflow                        // OverflowException (array allocated with a negative size)
    | NonexistentBone(name: string)   // the plain Exception thrown by collectVertexWeights
    | DuplicateKey(key: string)       // ArgumentException thrown by Dictionary.Add
    | MissingAnimations               // the plain Exception thrown by the UtsuhoReiuji and ZombieFairy constructors

  datatype Result<T> = Ok(value: T) | Err(error: Error)
  {
    /** The exception, if any. */
    function Failure(): Option<Error>
    {
      if Err? then Some(error) else None
    }
  }

  datatype Vec2 = Vec2(x: real, y: real)

  datatype Vec3 = Vec3(x: real, y: real, z: real)
  {
    function Plus(o: Vec3): Vec3 { Vec3(x + o.x, y + o.y, z + o.z) }
    function Minus(o: Vec3): Vec3 { Vec3(x - o.x, y - o.y, z - o.z) }
    function Scale(k: real): Vec3 { Vec3(k * x, k * y, k * z) }
    /** The squared Euclidean length; comparing it with a squared bound is
        the same as comparing the length with the bound. */
    function LengthSquared(): real { x * x + y * y + z * z }
  }

  datatype Vec4 = Vec4(x: real, y: real, z: real, w: real)

  const Zero3 := Vec3(0.0, 0.0, 0.0)
  /** Utils.UP */
  const Up := Vec3(0.0, 0.0, 1.0)
  /** Utils.FORWARD */
  const Forward := Vec3(0.0, -1.0, 0.0)

  function Cross(a: Vec3, b: Vec3): Vec3
  {
    Vec3(a.y * b.z - a.z * b.y, a.z * b.x - a.x * b.z, a.x * b.y - a.y * b.x)
  }

  /** Vector3.Lerp */
  function Lerp(a: Vec3, b: Vec3, t: real): Vec3
  {
    a.Plus(b.Minus(a).Scale(t))
  }

  /** A quaternion, or the (symbolic) spherical interpolation of two. */
  datatype Quat = Quat(x: real, y: real, z: real, w: real) | Slerp(from: Quat, to: Quat, t: real)

  /** A 4x4 matrix, kept symbolic: the identity, the matrix built from a
      rotation or a translation, or an opaque transform read from a model file. */
  datatype Matrix =
    | Identity
    | RotationMatrix(q: Quat)
    | TranslationMatrix(v: Vec3)
    | Transform(id: nat)

  function Min(a: real, b: real): real { if a <= b then a else b }
  function Max(a: real, b: real): real { if a >= b then a else b }

  /** Math.Max(Math.Min(v, hi), lo), the clamp idiom the C# code uses. */
  function Clamp(v: real, lo: real, hi: real): (r: real)
    requires lo <= hi
    ensures lo <= r <= hi
    ensures lo <= v <= hi ==> r == v
    ensures v < lo ==> r == lo
    ensures v > hi ==> r == hi
  {
    Max(Min(v, hi), lo)
  }

  /** The C# remainder operator % on floating-point values: the quotient is
      truncated toward zero, so the result has the sign of the dividend. */
  function TruncatedRemainder(x: real, m: real): (r: real)
    requires m > 0.0
    ensures x >= 0.0 ==> 0.0 <= r < m
    ensures x <= 0.0 ==> -m < r <= 0.0
    ensures 0.0 <= x < m ==> r == x
    ensures -m < x <= 0.0 ==> r == x
  {
    if x >= 0.0 then
      RemainderBounds(x, m);
      x - (x / m).Floor as real * m
    else
      RemainderBounds(-x, m);
      x + ((-x) / m).Floor as real * m
  }

  lemma RemainderBounds(x: real, m: real)
    requires m > 0.0 && x >= 0.0
    ensures 0.0 <= x - (x / m).Floor as real * m < m
    ensures x < m ==> (x / m).Floor == 0
  {
    var d := x / m;
    var q := d.Floor as real;
    assert d * m == x;
    assert q <= d < q + 1.0;
    ScaleMonotone(q, d, m);
    ScaleStrict(d, q + 1.0, m);
    assert (q + 1.0) * m == q * m + m;
    assert x - q * m < m;
    assert q == (x / m).Floor as real;
    if x < m {
      if d >= 1.0 {
        ScaleMonotone(1.0, d, m);
      }
    }
  }

  lemma ScaleMonotone(a: real, b: real, m: real)
    requires a <= b && m > 0.0
    ensures a * m <= b * m
  {
  }

  lemma ScaleStrict(a: real, b: real, m: real)
    requires a < b && m > 0.0
    ensures a * m < b * m
  {
  }

  /** A part of a positive whole, divided by the whole, is a fraction in [0, 1). */
  lemma FractionBounds(a: real, d: real)
    requires 0.0 <= a < d
    ensures 0.0 <= a / d < 1.0
  {
    var f := a / d;
    assert f * d == a;
    if f >= 1.0 {
      ScaleMonotone(1.0, f, d);
    }
  }

  /** A non-empty prefix is the shorter prefix and one more element. */
  lemma TakeOneMore<T>(s: seq<T>, k: nat)
    requires 0 < k <= |s|
    ensures s[..k] == s[..k - 1] + [s[k - 1]]
  {
  }
}
