/**
  The delta-rule erase step drawn in the plane: a key `K` and a memory
  vector `S`, both 2-D records, and `S_new = S - (kEff · S) kEff`.  When the
  key is normalised `kEff` is the unit vector along `K` and the step is the
  orthogonal projection onto the line perpendicular to `K`; otherwise `kEff`
  is `K` scaled from pixels to units (`K / 100`) and the step is generally
  not a projection.

  `Math.sqrt` is the parameter `sqrt`, assumed only to satisfy IsSqrt.
*/
module DeltaNetRotation {

  /** A plane vector, the `{x, y}` records of the demo. */
  datatype Vec2 = Vec2(x: real, y: real)

  /** Pixels per logical unit on the canvas. */
  const PixelsPerUnit: real := 100.0

  /** The tolerance of the orthogonality check. */
  const OrthoTolerance: real := 0.1

  /** The minimal properties of `Math.sqrt` on the non-negative reals. */
  ghost predicate IsSqrt(sqrt: real -> real) {
    forall x :: 0.0 <= x ==> 0.0 <= sqrt(x) && sqrt(x) * sqrt(x) == x
  }

  const Zero: Vec2 := Vec2(0.0, 0.0)

  function Add(a: Vec2, b: Vec2): (r: Vec2)
    ensures r.x == a.x + b.x && r.y == a.y + b.y
  {
    Vec2(a.x + b.x, a.y + b.y)
  }

  function Sub(a: Vec2, b: Vec2): (r: Vec2)
    ensures Add(r, b) == a
  {
    Vec2(a.x - b.x, a.y - b.y)
  }

  function Scale(v: Vec2, s: real): (r: Vec2)
    ensures s == 1.0 ==> r == v
    ensures v == Zero || s == 0.0 ==> r == Zero
  {
    Vec2(v.x * s, v.y * s)
  }

  function Dot(a: Vec2, b: Vec2): real {
    a.x * b.x + a.y * b.y
  }

  /** Vector addition is commutative and associative with `Zero` as unit, and `Sub` undoes it. */
  lemma {:induction false} AddLaws(a: Vec2, b: Vec2, c: Vec2)
    ensures Add(a, b) == Add(b, a) && Add(Add(a, b), c) == Add(a, Add(b, c))
    ensures Add(a, Zero) == a && Sub(Add(a, b), b) == a
  {
  }

  /** The dot product is symmetric, distributes over `Add` and `Sub`, pulls out scalars and is ≥ 0 on the diagonal. */
  lemma {:induction false} DotLaws(a: Vec2, b: Vec2, c: Vec2, l: real)
    ensures Dot(a, b) == Dot(b, a)
    ensures Dot(Add(a, b), c) == Dot(a, c) + Dot(b, c) && Dot(Sub(a, b), c) == Dot(a, c) - Dot(b, c)
    ensures Dot(a, Scale(b, l)) == l * Dot(a, b)
    ensures 0.0 <= Dot(a, a)
  {
    DotScaleR(a, b, l);
    SquaresNonneg(a);
  }

  function Abs(a: real): (r: real)
    ensures 0.0 <= r && (r == a || r == -a)
  {
    if a < 0.0 then -a else a
  }

  /** `‖v‖`: with a lawful `sqrt` it is the non-negative root of `v · v`, and zero exactly for the zero vector. */
  function Len(v: Vec2, sqrt: real -> real): (r: real)
    ensures IsSqrt(sqrt) ==> 0.0 <= r && r * r == Dot(v, v)
    ensures IsSqrt(sqrt) ==> (r == 0.0 <==> v == Zero)
  {
    var q := Dot(v, v);
    SquaresNonneg(v);
    var r := sqrt(q);
    assert IsSqrt(sqrt) ==> (r == 0.0 <==> v == Zero) by {
      if IsSqrt(sqrt) {
        assert 0.0 <= r && r * r == q;
        RootZero(r, q);
        if v != Zero {
          SquaresPositive(v);
          assert 0.0 < q;
          assert r != 0.0;
        } else {
          assert q == 0.0;
        }
      }
    }
    r
  }

  /**
    The unit vector along `v`, or the zero vector when `‖v‖ = 0`: with a
    lawful `sqrt` the zero vector stays zero and any other vector becomes a
    unit vector that, scaled back by `‖v‖`, gives `v`.
  */
  function Norm(v: Vec2, sqrt: real -> real): (r: Vec2)
    ensures v == Zero ==> r == Zero
    ensures IsSqrt(sqrt) && v != Zero ==> Dot(r, r) == 1.0 && v == Scale(r, Len(v, sqrt))
  {
    var l := Len(v, sqrt);
    if l == 0.0 then Zero
    else
      var r := Vec2(v.x / l, v.y / l);
      UnitScaled(v, l, r);
      r
  }

  /** Dividing by a positive `l` with `l² = v·v` gives a unit vector that `l` scales back to `v`. */
  lemma {:induction false} UnitScaled(v: Vec2, l: real, r: Vec2)
    requires l != 0.0 && r == Vec2(v.x / l, v.y / l)
    ensures v == Scale(r, l)
    ensures 0.0 < l && l * l == Dot(v, v) ==> Dot(r, r) == 1.0
  {
    assert (v.x / l) * l == v.x && (v.y / l) * l == v.y;
    if 0.0 < l && l * l == Dot(v, v) {
      UnitArith(v.x, v.y, l);
    }
  }

  /** A non-negative root is zero exactly when its square is. */
  lemma {:induction false} RootZero(r: real, q: real)
    requires 0.0 <= r && r * r == q
    ensures r == 0.0 <==> q == 0.0
  {
    if r > 0.0 {
      calc {
        q;
        == r * r;
        > 0.0 * r;
        == 0.0;
      }
    }
  }

  /** `a²`, named so that facts about it survive as facts about one term. */
  function Sq(a: real): real {
    a * a
  }

  lemma {:induction false} SquaresNonneg(v: Vec2)
    ensures 0.0 <= Dot(v, v)
  {
    assert Dot(v, v) == Sq(v.x) + Sq(v.y);
    SquareNonneg(v.x);
    SquareNonneg(v.y);
  }

  lemma {:induction false} SquaresPositive(v: Vec2)
    requires v != Zero
    ensures 0.0 < Dot(v, v)
  {
    assert Dot(v, v) == Sq(v.x) + Sq(v.y);
    SquareNonneg(v.x);
    SquareNonneg(v.y);
    if v.x != 0.0 {
      SquarePositive(v.x);
    } else {
      SquarePositive(v.y);
    }
  }

  lemma {:induction false} SquareNonneg(a: real)
    ensures 0.0 <= Sq(a)
  {
    if a != 0.0 {
      SquarePositive(a);
    }
  }

  lemma {:induction false} SquarePositive(a: real)
    requires a != 0.0
    ensures 0.0 < Sq(a)
  {
    if a > 0.0 {
      calc {
        Sq(a);
        == a * a;
        > 0.0 * a;
      }
    } else {
      var b := -a;
      calc {
        Sq(a);
        == b * b;
        > 0.0 * b;
      }
    }
  }

  /**
    `norm` sends the zero vector to itself; any other vector goes to a unit
    vector pointing the same way, `v / ‖v‖` with `‖v‖ > 0`.
  */
  lemma {:induction false} NormIsUnit(v: Vec2, sqrt: real -> real)
    requires IsSqrt(sqrt)
    ensures v == Zero ==> Norm(v, sqrt) == Zero
    ensures v != Zero ==>
      0.0 < Len(v, sqrt) && Norm(v, sqrt) == Scale(v, 1.0 / Len(v, sqrt)) &&
      Dot(Norm(v, sqrt), Norm(v, sqrt)) == 1.0 && v == Scale(Norm(v, sqrt), Len(v, sqrt))
  {
    var l := Len(v, sqrt);
    if v != Zero {
      UnitArith(v.x, v.y, l);
    }
  }

  /** `(x/l)² + (y/l)² = 1` when `l² = x² + y² > 0`, and `x/l = x (1/l)`. */
  lemma {:induction false} UnitArith(x: real, y: real, l: real)
    requires 0.0 < l && l * l == x * x + y * y
    ensures (x / l) * (x / l) + (y / l) * (y / l) == 1.0
    ensures x / l == x * (1.0 / l) && y / l == y * (1.0 / l)
    ensures (x / l) * l == x && (y / l) * l == y
  {
    assert (x / l) * (x / l) == (x * x) / (l * l);
    assert (y / l) * (y / l) == (y * y) / (l * l);
  }

  /** The quantities the demo derives from `K`, `S` and the normalise toggle. */
  datatype Projection = Projection(
    kEff: Vec2,
    alpha: real,
    erased: Vec2,
    sNew: Vec2,
    dotNew: real,
    isOrthogonal: bool)

  /**
    `norm(K)` when normalised, otherwise `K` scaled by `1 / PIXELS_PER_UNIT`:
    a unit vector for a non-zero key in the first mode, a vector with
    `‖kEff‖² = ‖K‖² / 10⁴` in the second, and zero for the zero key.
  */
  function KEff(k: Vec2, normalized: bool, sqrt: real -> real): (r: Vec2)
    ensures k == Zero ==> r == Zero
    ensures normalized && IsSqrt(sqrt) && k != Zero ==> Dot(r, r) == 1.0
    ensures !normalized ==> Dot(r, r) == Dot(k, k) / 10000.0
  {
    if normalized then Norm(k, sqrt)
    else
      var r := Scale(k, 1.0 / PixelsPerUnit);
      ScaleSquares(k.x, k.y, 1.0 / PixelsPerUnit);
      r
  }

  /** `(x c)² + (y c)² = (x² + y²)/10⁴` for `c = 1/100`. */
  lemma {:induction false} ScaleSquares(x: real, y: real, c: real)
    requires c == 1.0 / 100.0
    ensures (x * c) * (x * c) + (y * c) * (y * c) == (x * x + y * y) / 10000.0
  {
    assert c * c == 1.0 / 10000.0;
  }

  /**
    `S - (kEff · S) kEff`, the erase step for a given effective key: adding
    the erased component back gives `S`, and whatever the key,
    `⟨sNew, kEff⟩ = (1 - ‖kEff‖²) ⟨kEff, S⟩`.
  */
  function Erase(kEff: Vec2, s: Vec2): (r: Vec2)
    ensures Add(r, Scale(kEff, Dot(kEff, s))) == s
    ensures Dot(r, kEff) == (1.0 - Dot(kEff, kEff)) * Dot(kEff, s)
  {
    InnerArith(s.x, s.y, kEff.x, kEff.y, Dot(kEff, s));
    Sub(s, Scale(kEff, Dot(kEff, s)))
  }

  /** The calculation block of the demo. */
  function Compute(k: Vec2, s: Vec2, normalized: bool, sqrt: real -> real): (p: Projection)
    ensures p.kEff == KEff(k, normalized, sqrt)
    ensures Add(p.sNew, p.erased) == s
    ensures p.isOrthogonal <==> -OrthoTolerance < Dot(p.sNew, k) < OrthoTolerance
  {
    var kEff := KEff(k, normalized, sqrt);
    var alpha := Dot(kEff, s);
    var erased := Scale(kEff, alpha);
    var sNew := Sub(s, erased);
    var dotNew := Dot(sNew, k);
    Projection(kEff, alpha, erased, sNew, dotNew, Abs(dotNew) < OrthoTolerance)
  }

  lemma {:induction false} InnerArith(sx: real, sy: real, kx: real, ky: real, a: real)
    ensures (sx - kx * a) * kx + (sy - ky * a) * ky == (1.0 - (kx * kx + ky * ky)) * a + (sx * kx + sy * ky - a)
  {
  }

  /** The demo's `sNew` is Erase applied to its `kEff`. */
  lemma {:induction false} ComputeErases(k: Vec2, s: Vec2, normalized: bool, sqrt: real -> real)
    ensures Compute(k, s, normalized, sqrt).sNew == Erase(KEff(k, normalized, sqrt), s)
    ensures Dot(Compute(k, s, normalized, sqrt).sNew, KEff(k, normalized, sqrt))
      == (1.0 - Dot(KEff(k, normalized, sqrt), KEff(k, normalized, sqrt))) * Dot(KEff(k, normalized, sqrt), s)
  {
  }

  /** Normalised and with a non-zero key, `sNew` is orthogonal to `K` itself, so the check passes. */
  lemma {:induction false} NormalizedIsOrthogonal(k: Vec2, s: Vec2, sqrt: real -> real)
    requires IsSqrt(sqrt) && k != Zero
    ensures Dot(Compute(k, s, true, sqrt).sNew, k) == 0.0
    ensures Compute(k, s, true, sqrt).isOrthogonal
  {
    NormIsUnit(k, sqrt);
    ComputeErases(k, s, true, sqrt);
    UnitKeyOrthogonal(k, s, Norm(k, sqrt), Len(k, sqrt));
  }

  /** With the zero key the step leaves `S` unchanged in either mode, whatever `sqrt` returns. */
  lemma {:induction false} ZeroKeyUnchanged(s: Vec2, normalized: bool, sqrt: real -> real)
    ensures Compute(Zero, s, normalized, sqrt).sNew == s
  {
    ComputeErases(Zero, s, normalized, sqrt);
    assert KEff(Zero, normalized, sqrt) == Zero;
    EraseZero(s);
  }

  /** For a unit `kEff` along `K` (`K = l kEff`), the erased vector is orthogonal to `K`. */
  lemma {:induction false} UnitKeyOrthogonal(k: Vec2, s: Vec2, kEff: Vec2, l: real)
    requires Dot(kEff, kEff) == 1.0 && k == Scale(kEff, l)
    ensures Dot(Erase(kEff, s), k) == 0.0
  {
    DotScaleR(Erase(kEff, s), kEff, l);
  }

  /** The zero key erases nothing. */
  lemma {:induction false} EraseZero(s: Vec2)
    ensures Erase(Zero, s) == s
  {
    assert Dot(Zero, s) == 0.0;
    assert Scale(Zero, 0.0) == Zero;
  }

  /** `⟨u, l w⟩ = l ⟨u, w⟩`. */
  lemma {:induction false} DotScaleR(u: Vec2, w: Vec2, l: real)
    ensures Dot(u, Scale(w, l)) == l * Dot(u, w)
  {
  }

  /**
    Not normalised, `⟨sNew, K⟩ = (1 - ‖K‖²/10⁴)(K · S)`: the check passes
    only when `K` happens to be a unit (100 pixels long), is orthogonal to `S`,
    or the product is below the tolerance.
  */
  lemma {:induction false} UnnormalizedInner(k: Vec2, s: Vec2, sqrt: real -> real)
    ensures Dot(Compute(k, s, false, sqrt).sNew, k)
      == (1.0 - Dot(k, k) / 10000.0) * Dot(k, s)
  {
    ComputeErases(k, s, false, sqrt);
    ScaledKeyInner(k, s, 1.0 / PixelsPerUnit);
  }

  /** For `kEff = c K`: `⟨Erase(kEff, S), K⟩ = (1 - c² ‖K‖²) ⟨K, S⟩`. */
  lemma {:induction false} ScaledKeyInner(k: Vec2, s: Vec2, c: real)
    ensures Dot(Erase(Scale(k, c), s), k) == (1.0 - c * c * Dot(k, k)) * Dot(k, s)
  {
    var a := Dot(k, s);
    assert Dot(Scale(k, c), s) == c * a;
    ScaledKeyArith(s.x, s.y, k.x, k.y, c, a);
  }

  lemma {:induction false} ScaledKeyArith(sx: real, sy: real, kx: real, ky: real, c: real, a: real)
    requires a == kx * sx + ky * sy
    ensures (sx - kx * c * (c * a)) * kx + (sy - ky * c * (c * a)) * ky == (1.0 - c * c * (kx * kx + ky * ky)) * a
  {
  }

  /** With a unit effective key the step is a projection: applying it twice changes nothing more. */
  lemma {:induction false} EraseIdempotent(kEff: Vec2, s: Vec2)
    requires Dot(kEff, kEff) == 1.0
    ensures Erase(kEff, Erase(kEff, s)) == Erase(kEff, s)
  {
    var u := Erase(kEff, s);
    assert Dot(kEff, u) == 0.0;
  }

  /** In the normalised mode the demo's map `S ↦ sNew` is idempotent for every key. */
  lemma {:induction false} NormalizedIdempotent(k: Vec2, s: Vec2, sqrt: real -> real)
    requires IsSqrt(sqrt)
    ensures var kEff := KEff(k, true, sqrt);
      Erase(kEff, Compute(k, s, true, sqrt).sNew) == Compute(k, s, true, sqrt).sNew
  {
    NormIsUnit(k, sqrt);
    ComputeErases(k, s, true, sqrt);
    if k != Zero {
      EraseIdempotent(Norm(k, sqrt), s);
    } else {
      EraseZero(s);
      EraseZero(Erase(Zero, s));
    }
  }
}
