/** traits/bounds: a two-component vector whose components share one type,
    with `+` and `-` componentwise and a dot product. The operations are
    taken at `int`, where the trait bounds `Add`, `Sub` and `Mul` hold. */
module TraitBounds {

  datatype Vec2<T> = Vec2(x: T, y: T)

  /** `impl Add for Vec2<T>`. */
  function Add(v: Vec2<int>, rhs: Vec2<int>): (r: Vec2<int>)
    ensures r.x == v.x + rhs.x && r.y == v.y + rhs.y
  {
    Vec2(v.x + rhs.x, v.y + rhs.y)
  }

  /** `impl Sub for Vec2<T>`. */
  function Sub(v: Vec2<int>, rhs: Vec2<int>): (r: Vec2<int>)
    ensures r.x == v.x - rhs.x && r.y == v.y - rhs.y
  {
    Vec2(v.x - rhs.x, v.y - rhs.y)
  }

  /** `Vec2::dot`. */
  function Dot(v: Vec2<int>, rhs: Vec2<int>): (r: int)
    ensures r == v.x * rhs.x + v.y * rhs.y
  {
    (v.x * rhs.x) + (v.y * rhs.y)
  }

  /** Subtracting what was added gives back the original vector. */
  lemma SubUndoesAdd(a: Vec2<int>, b: Vec2<int>)
    ensures Sub(Add(a, b), b) == a
  {
  }

  lemma AddCommutes(a: Vec2<int>, b: Vec2<int>)
    ensures Add(a, b) == Add(b, a)
  {
  }

  lemma DotSymmetric(a: Vec2<int>, b: Vec2<int>)
    ensures Dot(a, b) == Dot(b, a)
  {
  }

  /** The dot product distributes over `+`. */
  lemma DotDistributesOverAdd(a: Vec2<int>, b: Vec2<int>, c: Vec2<int>)
    ensures Dot(Add(a, b), c) == Dot(a, c) + Dot(b, c)
  {
  }

  /** A vector's dot product with itself is never negative. */
  lemma DotSelfNonNegative(a: Vec2<int>)
    ensures Dot(a, a) >= 0
  {
  }
}
