/** Three-vectors and scalar-first quaternions over the reals, with the
    Hamilton product, the conjugate, the pure-quaternion embedding of a
    vector and the projection back. This is the small quaternion value type
    the trajectory pipeline uses in place of an external quaternion library.

    The polynomial identities behind associativity, the conjugate sandwich
    and the multiplicative norm are proved about quaternions that are only
    known to be products (IsProduct), never about a product nested inside
    another, which keeps each proof obligation small. */
module Quaternions {

  datatype Vec3 = Vec3(x: real, y: real, z: real)

  /** A quaternion w + x i + y j + z k, scalar part first. */
  datatype Quat = Quat(w: real, x: real, y: real, z: real)

  const Zero3: Vec3 := Vec3(0.0, 0.0, 0.0)

  function Add(u: Vec3, v: Vec3): Vec3 {
    Vec3(u.x + v.x, u.y + v.y, u.z + v.z)
  }

  function Sub(u: Vec3, v: Vec3): Vec3 {
    Vec3(u.x - v.x, u.y - v.y, u.z - v.z)
  }

  function Dot(u: Vec3, v: Vec3): real {
    u.x * v.x + u.y * v.y + u.z * v.z
  }

  /** Hamilton product p q, written out on the components. */
  function Mul(p: Quat, q: Quat): Quat {
    Quat(p.w * q.w - p.x * q.x - p.y * q.y - p.z * q.z,
         p.w * q.x + p.x * q.w + p.y * q.z - p.z * q.y,
         p.w * q.y - p.x * q.z + p.y * q.w + p.z * q.x,
         p.w * q.z + p.x * q.y - p.y * q.x + p.z * q.w)
  }

  /** Componentwise sum of two quaternions. */
  function AddQ(p: Quat, q: Quat): Quat {
    Quat(p.w + q.w, p.x + q.x, p.y + q.y, p.z + q.z)
  }

  /** The conjugate q*: the quaternion whose sum with q is the real
      quaternion 2 w. */
  function Conj(q: Quat): (r: Quat)
    ensures AddQ(q, r) == Quat(2.0 * q.w, 0.0, 0.0, 0.0)
  {
    Quat(q.w, -q.x, -q.y, -q.z)
  }

  /** Squared norm |q|^2. */
  function Norm2(q: Quat): real {
    q.w * q.w + q.x * q.x + q.y * q.y + q.z * q.z
  }

  /** The pure quaternion (0, v). */
  function Pure(v: Vec3): Quat {
    Quat(0.0, v.x, v.y, v.z)
  }

  /** The vector part of q; the scalar part is dropped. */
  function VectorPart(q: Quat): Vec3 {
    Vec3(q.x, q.y, q.z)
  }

  const One: Quat := Quat(1.0, 0.0, 0.0, 0.0)

  /** The real quaternion 1 is the identity of the Hamilton product on
      either side. */
  lemma MulOne(q: Quat)
    ensures Mul(One, q) == q && Mul(q, One) == q
  {
  }

  /** The sandwich product q v q*, evaluated left to right as (q v) q*,
      projected back to a vector. */
  function Rotate(q: Quat, v: Vec3): (r: Vec3)
    ensures Pure(r) == Mul(Mul(q, Pure(v)), Conj(q))
  {
    SandwichIsPure(q, v);
    VectorPart(Mul(Mul(q, Pure(v)), Conj(q)))
  }

  lemma VectorPartOfPure(v: Vec3)
    ensures VectorPart(Pure(v)) == v
  {
  }

  /** m is the Hamilton product a b, written out componentwise. */
  predicate IsProduct(a: Quat, b: Quat, m: Quat) {
    && m.w == a.w * b.w - a.x * b.x - a.y * b.y - a.z * b.z
    && m.x == a.w * b.x + a.x * b.w + a.y * b.z - a.z * b.y
    && m.y == a.w * b.y - a.x * b.z + a.y * b.w + a.z * b.x
    && m.z == a.w * b.z + a.x * b.y - a.y * b.x + a.z * b.w
  }

  lemma ProductIsProduct(a: Quat, b: Quat)
    ensures IsProduct(a, b, Mul(a, b))
  {
  }

  lemma SandwichOfProduct(q: Quat, v: Vec3, s: Quat)
    requires IsProduct(q, Pure(v), s)
    ensures Mul(s, Conj(q)).w == 0.0
  {
  }

  /** Conjugating a pure quaternion by any q gives a pure quaternion. */
  lemma SandwichIsPure(q: Quat, v: Vec3)
    ensures Mul(Mul(q, Pure(v)), Conj(q)).w == 0.0
  {
    ProductIsProduct(q, Pure(v));
    SandwichOfProduct(q, v, Mul(q, Pure(v)));
  }

  lemma AssocScalarW(pw: real, px: real, py: real, pz: real,
                     qw: real, qx: real, qy: real, qz: real,
                     rw: real, rx: real, ry: real, rz: real,
                     aw: real, ax: real, ay: real, az: real,
                     nw: real, nx: real, ny: real, nz: real)
    requires aw == pw * qw - px * qx - py * qy - pz * qz
    requires ax == pw * qx + px * qw + py * qz - pz * qy
    requires ay == pw * qy - px * qz + py * qw + pz * qx
    requires az == pw * qz + px * qy - py * qx + pz * qw
    requires nw == qw * rw - qx * rx - qy * ry - qz * rz
    requires nx == qw * rx + qx * rw + qy * rz - qz * ry
    requires ny == qw * ry - qx * rz + qy * rw + qz * rx
    requires nz == qw * rz + qx * ry - qy * rx + qz * rw
    ensures aw * rw - ax * rx - ay * ry - az * rz == pw * nw - px * nx - py * ny - pz * nz
  {
  }

  lemma AssocOfProductsW(p: Quat, q: Quat, r: Quat, a: Quat, n: Quat)
    requires IsProduct(p, q, a) && IsProduct(q, r, n)
    ensures Mul(a, r).w == Mul(p, n).w
  {
    AssocScalarW(p.w, p.x, p.y, p.z, q.w, q.x, q.y, q.z, r.w, r.x, r.y, r.z,
                 a.w, a.x, a.y, a.z, n.w, n.x, n.y, n.z);
  }

  lemma AssocScalarX(pw: real, px: real, py: real, pz: real,
                     qw: real, qx: real, qy: real, qz: real,
                     rw: real, rx: real, ry: real, rz: real,
                     aw: real, ax: real, ay: real, az: real,
                     nw: real, nx: real, ny: real, nz: real)
    requires aw == pw * qw - px * qx - py * qy - pz * qz
    requires ax == pw * qx + px * qw + py * qz - pz * qy
    requires ay == pw * qy - px * qz + py * qw + pz * qx
    requires az == pw * qz + px * qy - py * qx + pz * qw
    requires nw == qw * rw - qx * rx - qy * ry - qz * rz
    requires nx == qw * rx + qx * rw + qy * rz - qz * ry
    requires ny == qw * ry - qx * rz + qy * rw + qz * rx
    requires nz == qw * rz + qx * ry - qy * rx + qz * rw
    ensures aw * rx + ax * rw + ay * rz - az * ry == pw * nx + px * nw + py * nz - pz * ny
  {
  }

  lemma AssocOfProductsX(p: Quat, q: Quat, r: Quat, a: Quat, n: Quat)
    requires IsProduct(p, q, a) && IsProduct(q, r, n)
    ensures Mul(a, r).x == Mul(p, n).x
  {
    AssocScalarX(p.w, p.x, p.y, p.z, q.w, q.x, q.y, q.z, r.w, r.x, r.y, r.z,
                 a.w, a.x, a.y, a.z, n.w, n.x, n.y, n.z);
  }

  lemma AssocScalarY(pw: real, px: real, py: real, pz: real,
                     qw: real, qx: real, qy: real, qz: real,
                     rw: real, rx: real, ry: real, rz: real,
                     aw: real, ax: real, ay: real, az: real,
                     nw: real, nx: real, ny: real, nz: real)
    requires aw == pw * qw - px * qx - py * qy - pz * qz
    requires ax == pw * qx + px * qw + py * qz - pz * qy
    requires ay == pw * qy - px * qz + py * qw + pz * qx
    requires az == pw * qz + px * qy - py * qx + pz * qw
    requires nw == qw * rw - qx * rx - qy * ry - qz * rz
    requires nx == qw * rx + qx * rw + qy * rz - qz * ry
    requires ny == qw * ry - qx * rz + qy * rw + qz * rx
    requires nz == qw * rz + qx * ry - qy * rx + qz * rw
    ensures aw * ry - ax * rz + ay * rw + az * rx == pw * ny - px * nz + py * nw + pz * nx
  {
  }

  lemma AssocOfProductsY(p: Quat, q: Quat, r: Quat, a: Quat, n: Quat)
    requires IsProduct(p, q, a) && IsProduct(q, r, n)
    ensures Mul(a, r).y == Mul(p, n).y
  {
    AssocScalarY(p.w, p.x, p.y, p.z, q.w, q.x, q.y, q.z, r.w, r.x, r.y, r.z,
                 a.w, a.x, a.y, a.z, n.w, n.x, n.y, n.z);
  }

  lemma AssocScalarZ(pw: real, px: real, py: real, pz: real,
                     qw: real, qx: real, qy: real, qz: real,
                     rw: real, rx: real, ry: real, rz: real,
                     aw: real, ax: real, ay: real, az: real,
                     nw: real, nx: real, ny: real, nz: real)
    requires aw == pw * qw - px * qx - py * qy - pz * qz
    requires ax == pw * qx + px * qw + py * qz - pz * qy
    requires ay == pw * qy - px * qz + py * qw + pz * qx
    requires az == pw * qz + px * qy - py * qx + pz * qw
    requires nw == qw * rw - qx * rx - qy * ry - qz * rz
    requires nx == qw * rx + qx * rw + qy * rz - qz * ry
    requires ny == qw * ry - qx * rz + qy * rw + qz * rx
    requires nz == qw * rz + qx * ry - qy * rx + qz * rw
    ensures aw * rz + ax * ry - ay * rx + az * rw == pw * nz + px * ny - py * nx + pz * nw
  {
  }

  lemma AssocOfProductsZ(p: Quat, q: Quat, r: Quat, a: Quat, n: Quat)
    requires IsProduct(p, q, a) && IsProduct(q, r, n)
    ensures Mul(a, r).z == Mul(p, n).z
  {
    AssocScalarZ(p.w, p.x, p.y, p.z, q.w, q.x, q.y, q.z, r.w, r.x, r.y, r.z,
                 a.w, a.x, a.y, a.z, n.w, n.x, n.y, n.z);
  }

  /** (p q) r == p (q r), for quaternions known only as the inner products. */
  lemma AssocOfProducts(p: Quat, q: Quat, r: Quat, a: Quat, n: Quat)
    requires IsProduct(p, q, a) && IsProduct(q, r, n)
    ensures Mul(a, r) == Mul(p, n)
  {
    AssocOfProductsW(p, q, r, a, n);
    AssocOfProductsX(p, q, r, a, n);
    AssocOfProductsY(p, q, r, a, n);
    AssocOfProductsZ(p, q, r, a, n);
  }

  /** The Hamilton product is associative. */
  lemma MulAssoc(p: Quat, q: Quat, r: Quat)
    ensures Mul(Mul(p, q), r) == Mul(p, Mul(q, r))
  {
    ProductIsProduct(p, q);
    ProductIsProduct(q, r);
    AssocOfProducts(p, q, r, Mul(p, q), Mul(q, r));
  }

  lemma ConjScalar(pw: real, px: real, py: real, pz: real,
                   qw: real, qx: real, qy: real, qz: real,
                   mw: real, mx: real, my: real, mz: real)
    requires mw == pw * qw - px * qx - py * qy - pz * qz
    requires mx == pw * qx + px * qw + py * qz - pz * qy
    requires my == pw * qy - px * qz + py * qw + pz * qx
    requires mz == pw * qz + px * qy - py * qx + pz * qw
    ensures mw == qw * pw - (-qx) * (-px) - (-qy) * (-py) - (-qz) * (-pz)
    ensures -mx == qw * (-px) + (-qx) * pw + (-qy) * (-pz) - (-qz) * (-py)
    ensures -my == qw * (-py) - (-qx) * (-pz) + (-qy) * pw + (-qz) * (-px)
    ensures -mz == qw * (-pz) + (-qx) * (-py) - (-qy) * (-px) + (-qz) * pw
  {
  }

  lemma ConjOfProduct(p: Quat, q: Quat, m: Quat)
    requires IsProduct(p, q, m)
    ensures IsProduct(Conj(q), Conj(p), Conj(m))
  {
    ConjScalar(p.w, p.x, p.y, p.z, q.w, q.x, q.y, q.z, m.w, m.x, m.y, m.z);
  }

  lemma ProductUnique(a: Quat, b: Quat, m: Quat, n: Quat)
    requires IsProduct(a, b, m) && IsProduct(a, b, n)
    ensures m == n
  {
  }

  /** Conjugation reverses products: (p q)* == q* p*. */
  lemma ConjMul(p: Quat, q: Quat)
    ensures Conj(Mul(p, q)) == Mul(Conj(q), Conj(p))
  {
    ProductIsProduct(p, q);
    ConjOfProduct(p, q, Mul(p, q));
    ProductIsProduct(Conj(q), Conj(p));
    ProductUnique(Conj(q), Conj(p), Conj(Mul(p, q)), Mul(Conj(q), Conj(p)));
  }

  /** q* q is the real quaternion |q|^2. */
  lemma MulConjLeft(q: Quat)
    ensures Mul(Conj(q), q) == Quat(Norm2(q), 0.0, 0.0, 0.0)
  {
  }

  lemma Norm2Conj(q: Quat)
    ensures Norm2(Conj(q)) == Norm2(q)
  {
  }

  lemma Norm2Pure(v: Vec3)
    ensures Norm2(Pure(v)) == Dot(v, v)
  {
  }

  /** Euler's four-square identity, on the components. */
  lemma FourSquares(pw: real, px: real, py: real, pz: real,
                    qw: real, qx: real, qy: real, qz: real,
                    mw: real, mx: real, my: real, mz: real)
    requires mw == pw * qw - px * qx - py * qy - pz * qz
    requires mx == pw * qx + px * qw + py * qz - pz * qy
    requires my == pw * qy - px * qz + py * qw + pz * qx
    requires mz == pw * qz + px * qy - py * qx + pz * qw
    ensures mw * mw + mx * mx + my * my + mz * mz
         == (pw * pw + px * px + py * py + pz * pz) * (qw * qw + qx * qx + qy * qy + qz * qz)
  {
  }

  lemma Norm2OfProduct(p: Quat, q: Quat, m: Quat)
    requires IsProduct(p, q, m)
    ensures Norm2(m) == Norm2(p) * Norm2(q)
  {
    FourSquares(p.w, p.x, p.y, p.z, q.w, q.x, q.y, q.z, m.w, m.x, m.y, m.z);
  }

  /** The squared norm is multiplicative. */
  lemma Norm2Mul(p: Quat, q: Quat)
    ensures Norm2(Mul(p, q)) == Norm2(p) * Norm2(q)
  {
    ProductIsProduct(p, q);
    Norm2OfProduct(p, q, Mul(p, q));
  }

  /** Left multiplication distributes over sums. */
  lemma MulAddRight(p: Quat, a: Quat, b: Quat)
    ensures Mul(p, AddQ(a, b)) == AddQ(Mul(p, a), Mul(p, b))
  {
    ProductIsProduct(p, a);
    ProductIsProduct(p, b);
    SumOfProductsRight(p, a, b, Mul(p, a), Mul(p, b));
    ProductIsProduct(p, AddQ(a, b));
    ProductUnique(p, AddQ(a, b), Mul(p, AddQ(a, b)), AddQ(Mul(p, a), Mul(p, b)));
  }

  lemma SumOfProductsRight(p: Quat, a: Quat, b: Quat, m: Quat, n: Quat)
    requires IsProduct(p, a, m) && IsProduct(p, b, n)
    ensures IsProduct(p, AddQ(a, b), AddQ(m, n))
  {
  }

  /** Right multiplication distributes over sums. */
  lemma MulAddLeft(a: Quat, b: Quat, q: Quat)
    ensures Mul(AddQ(a, b), q) == AddQ(Mul(a, q), Mul(b, q))
  {
    ProductIsProduct(a, q);
    ProductIsProduct(b, q);
    SumOfProductsLeft(a, b, q, Mul(a, q), Mul(b, q));
    ProductIsProduct(AddQ(a, b), q);
    ProductUnique(AddQ(a, b), q, Mul(AddQ(a, b), q), AddQ(Mul(a, q), Mul(b, q)));
  }

  lemma SumOfProductsLeft(a: Quat, b: Quat, q: Quat, m: Quat, n: Quat)
    requires IsProduct(a, q, m) && IsProduct(b, q, n)
    ensures IsProduct(AddQ(a, b), q, AddQ(m, n))
  {
  }

  /** Rotating by a product of quaternions rotates by the right factor first. */
  lemma RotateMul(p: Quat, q: Quat, v: Vec3)
    ensures Rotate(Mul(p, q), v) == Rotate(p, Rotate(q, v))
  {
    var pq := Mul(p, q);
    calc {
      Pure(Rotate(pq, v));
      Mul(Mul(pq, Pure(v)), Conj(pq));
      { ConjMul(p, q); }
      Mul(Mul(pq, Pure(v)), Mul(Conj(q), Conj(p)));
      { MulAssoc(p, q, Pure(v)); }
      Mul(Mul(p, Mul(q, Pure(v))), Mul(Conj(q), Conj(p)));
      { MulAssoc(Mul(p, Mul(q, Pure(v))), Conj(q), Conj(p)); }
      Mul(Mul(Mul(p, Mul(q, Pure(v))), Conj(q)), Conj(p));
      { MulAssoc(p, Mul(q, Pure(v)), Conj(q)); }
      Mul(Mul(p, Mul(Mul(q, Pure(v)), Conj(q))), Conj(p));
      Mul(Mul(p, Pure(Rotate(q, v))), Conj(p));
      Pure(Rotate(p, Rotate(q, v)));
    }
    VectorPartOfPure(Rotate(pq, v));
    VectorPartOfPure(Rotate(p, Rotate(q, v)));
  }

  /** Rotation is linear: it distributes over vector sums. */
  lemma RotateAdd(q: Quat, u: Vec3, v: Vec3)
    ensures Rotate(q, Add(u, v)) == Add(Rotate(q, u), Rotate(q, v))
  {
    var a, b := Mul(q, Pure(u)), Mul(q, Pure(v));
    assert Pure(Add(u, v)) == AddQ(Pure(u), Pure(v));
    MulAddRight(q, Pure(u), Pure(v));
    MulAddLeft(a, b, Conj(q));
    var c := Rotate(q, Add(u, v));
    assert Pure(c) == AddQ(Pure(Rotate(q, u)), Pure(Rotate(q, v)));
  }

  /** Rotation distributes over vector differences. */
  lemma RotateSub(q: Quat, u: Vec3, v: Vec3)
    ensures Rotate(q, Sub(u, v)) == Sub(Rotate(q, u), Rotate(q, v))
  {
    RotateAdd(q, Sub(u, v), v);
    assert Add(Sub(u, v), v) == u;
  }

  /** Every quaternion sends the zero vector to the zero vector. */
  lemma RotateZero(q: Quat)
    ensures Rotate(q, Zero3) == Zero3
  {
    RotateAdd(q, Zero3, Zero3);
    assert Add(Zero3, Zero3) == Zero3;
  }

  /** The identity quaternion leaves every vector in place. */
  lemma RotateOne(v: Vec3)
    ensures Rotate(One, v) == v
  {
    assert Mul(One, Pure(v)) == Pure(v);
    assert Mul(Pure(v), Conj(One)) == Pure(v);
  }

  /** Undoing a rotation by a unit quaternion with its conjugate returns the
      original vector. */
  lemma RotateConjInverse(q: Quat, v: Vec3)
    requires Norm2(q) == 1.0
    ensures Rotate(Conj(q), Rotate(q, v)) == v
  {
    RotateMul(Conj(q), q, v);
    MulConjLeft(q);
    assert Mul(Conj(q), q) == One;
    RotateOne(v);
  }

  lemma NormChain(ns: real, nqv: real, ncq: real, nq: real, d: real)
    requires ns == nqv * ncq
    requires nqv == nq * d
    requires ncq == nq
    ensures ns == nq * nq * d
  {
  }

  /** A rotation scales squared lengths by |q|^4, so a unit quaternion
      preserves lengths. */
  lemma RotateNorm(q: Quat, v: Vec3)
    ensures Dot(Rotate(q, v), Rotate(q, v)) == Norm2(q) * Norm2(q) * Dot(v, v)
  {
    var qv := Mul(q, Pure(v));
    Norm2Mul(qv, Conj(q));
    Norm2Mul(q, Pure(v));
    Norm2Conj(q);
    Norm2Pure(v);
    Norm2Pure(Rotate(q, v));
    NormChain(Norm2(Mul(qv, Conj(q))), Norm2(qv), Norm2(Conj(q)), Norm2(q), Dot(v, v));
  }
}
