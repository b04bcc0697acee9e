/** From the four movement keys to a movement direction. The keys act on the
    character's own axes: forward and backward along local +Z (forward
    pointing down -Z), left and right along local +X. */
module Direction {
  import opened Vectors

  /** The four movement keys of one tick's snapshot. */
  datatype Keys = Keys(forward: bool, backward: bool, left: bool, right: bool)

  /** One tick's key snapshot: the movement keys and the jump key. */
  datatype Inputs = Inputs(move: Keys, jump: bool)

  /** Net coefficient of one axis from its negative and its positive key. */
  function Axis(negative: bool, positive: bool): (c: int)
    ensures -1 <= c <= 1
    ensures c == 0 <==> negative == positive
    ensures c == 1 <==> positive && !negative
    ensures c == -1 <==> negative && !positive
  {
    (if positive then 1 else 0) - (if negative then 1 else 0)
  }

  /** Coefficient on local +Z: backward minus forward. */
  function AlongFacing(k: Keys): int {
    Axis(k.forward, k.backward)
  }

  /** Coefficient on local +X: right minus left. */
  function AlongRight(k: Keys): int {
    Axis(k.left, k.right)
  }

  /** Every opposing pair is either both pressed or both released. */
  predicate Balanced(k: Keys) {
    k.forward == k.backward && k.left == k.right
  }

  /** One opposing pair applied to `d` in the order the controller tests
      them: the negative key subtracts `axis`, then the positive key adds it. */
  function ApplyPair(negative: bool, positive: bool, axis: Vec3, d: Vec3): Vec3 {
    var d1 := if negative then Sub(d, axis) else d;
    if positive then Add(d1, axis) else d1
  }

  lemma ApplyPairAddsMultiple(negative: bool, positive: bool, axis: Vec3, d: Vec3)
    ensures ApplyPair(negative, positive, axis, d) == Add(d, Scale(Axis(negative, positive) as real, axis))
  {
    var c := Axis(negative, positive);
    if c == 0 {
      assert Scale(0.0, axis) == Zero;
    } else if c == 1 {
      assert Scale(1.0, axis) == axis;
    } else {
      assert Scale(-1.0, axis) == Sub(Zero, axis);
    }
  }

  /** The raw direction as the controller builds it, one key at a time,
      from the facing axis `f` and the right axis `r`. Opposing keys cancel
      exactly whatever the axes are, and a frame in the ground plane gives a
      direction in the ground plane. */
  function Accumulate(k: Keys, f: Vec3, r: Vec3): (v: Vec3)
    ensures Balanced(k) ==> v == Zero
    ensures Level(f, r) ==> v.y == 0.0
  {
    ApplyPair(k.left, k.right, r, ApplyPair(k.forward, k.backward, f, Zero))
  }

  /** The key-by-key subtractions and additions amount to the
      integer-coefficient combination of the two axes. */
  lemma AccumulateIsLinear(k: Keys, f: Vec3, r: Vec3)
    ensures Accumulate(k, f, r) ==
            Add(Scale(AlongFacing(k) as real, f), Scale(AlongRight(k) as real, r))
  {
    var along := Scale(AlongFacing(k) as real, f);
    var d := ApplyPair(k.forward, k.backward, f, Zero);
    ApplyPairAddsMultiple(k.forward, k.backward, f, Zero);
    assert d == along;
    ApplyPairAddsMultiple(k.left, k.right, r, along);
    assert Accumulate(k, f, r) == ApplyPair(k.left, k.right, r, along);
  }

  lemma CombinationLengthSq(a: real, b: real, f: Vec3, r: Vec3)
    ensures LengthSq(Add(Scale(a, f), Scale(b, r))) ==
            a * a * Dot(f, f) + 2.0 * a * b * Dot(f, r) + b * b * Dot(r, r)
  {
    assert (a * f.x + b * r.x) * (a * f.x + b * r.x) ==
           a * a * (f.x * f.x) + 2.0 * a * b * (f.x * r.x) + b * b * (r.x * r.x);
    assert (a * f.y + b * r.y) * (a * f.y + b * r.y) ==
           a * a * (f.y * f.y) + 2.0 * a * b * (f.y * r.y) + b * b * (r.y * r.y);
    assert (a * f.z + b * r.z) * (a * f.z + b * r.z) ==
           a * a * (f.z * f.z) + 2.0 * a * b * (f.z * r.z) + b * b * (r.z * r.z);
  }

  lemma OrthonormalCombination(a: real, b: real, f: Vec3, r: Vec3)
    requires Orthonormal(f, r)
    ensures LengthSq(Add(Scale(a, f), Scale(b, r))) == a * a + b * b
  {
    CombinationLengthSq(a, b, f, r);
    var ff, rr, fr := Dot(f, f), Dot(r, r), Dot(f, r);
    assert ff == 1.0 && rr == 1.0 && fr == 0.0;
  }

  /** How many of the two opposing pairs are unbalanced. */
  function UnbalancedPairs(k: Keys): nat {
    (if AlongFacing(k) == 0 then 0 else 1) + (if AlongRight(k) == 0 then 0 else 1)
  }

  /** A combination of an orthonormal pair with coefficients in {-1, 0, 1}
      has squared length equal to the number of non-zero coefficients. */
  lemma UnitCombinationLengthSq(a: int, b: int, f: Vec3, r: Vec3)
    requires -1 <= a <= 1 && -1 <= b <= 1
    requires Orthonormal(f, r)
    ensures LengthSq(Add(Scale(a as real, f), Scale(b as real, r))) ==
            (if a == 0 then 0.0 else 1.0) + (if b == 0 then 0.0 else 1.0)
  {
    var ar, br := a as real, b as real;
    OrthonormalCombination(ar, br, f, r);
    assert ar * ar == (if a == 0 then 0.0 else 1.0) by {
      if a == 1 { assert ar == 1.0; } else if a == -1 { assert ar == -1.0; }
    }
    assert br * br == (if b == 0 then 0.0 else 1.0) by {
      if b == 1 { assert br == 1.0; } else if b == -1 { assert br == -1.0; }
    }
  }

  lemma UnbalancedPairsAsReal(k: Keys)
    ensures UnbalancedPairs(k) as real ==
            (if AlongFacing(k) == 0 then 0.0 else 1.0) + (if AlongRight(k) == 0 then 0.0 else 1.0)
  {
  }

  /** On an orthonormal frame the squared length of the raw direction is the
      sum of the squared coefficients, i.e. the number of unbalanced pairs. */
  lemma RawLengthSq(k: Keys, f: Vec3, r: Vec3)
    requires Orthonormal(f, r)
    ensures LengthSq(Accumulate(k, f, r)) == UnbalancedPairs(k) as real
  {
    var a, b := AlongFacing(k), AlongRight(k);
    var w := Add(Scale(a as real, f), Scale(b as real, r));
    AccumulateIsLinear(k, f, r);
    UnitCombinationLengthSq(a, b, f, r);
    UnbalancedPairsAsReal(k);
    assert LengthSq(w) == UnbalancedPairs(k) as real;
  }

  /** So on an orthonormal frame the controller sees a non-zero direction
      exactly when some pair of keys is unbalanced. */
  lemma NonZeroIffUnbalanced(k: Keys, f: Vec3, r: Vec3)
    requires Orthonormal(f, r)
    ensures LengthSq(Accumulate(k, f, r)) > 0.0 <==> !Balanced(k)
  {
    RawLengthSq(k, f, r);
  }
}
