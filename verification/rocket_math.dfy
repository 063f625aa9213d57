/** Value types and pure rules behind the rocket state model: vectors and the
    inertia tensor, the engine and mass records, the sign convention of the
    damping derivatives, the inert-mass clamp of the staging events, and the
    parachute deployment rule together with its closed form over many calls. */
module RocketMath {

  /** Uninterpreted trigonometry: the model makes no claim about their values. */
  const Cos: real -> real
  const Sin: real -> real

  datatype Vector3 = Vector3(x: real, y: real, z: real)

  datatype Vector4 = Vector4(w: real, x: real, y: real, z: real)

  const Zero3 := Vector3(0.0, 0.0, 0.0)
  const Zero4 := Vector4(0.0, 0.0, 0.0, 0.0)

  /** A 3x3 matrix stored row by row. */
  datatype Matrix3 = Matrix3(row0: Vector3, row1: Vector3, row2: Vector3)

  const ZeroMatrix3 := Matrix3(Zero3, Zero3, Zero3)

  /** The six off-diagonal entries are zero. */
  predicate IsDiagonal(m: Matrix3)
  {
    m.row0.y == 0.0 && m.row0.z == 0.0 &&
    m.row1.x == 0.0 && m.row1.z == 0.0 &&
    m.row2.x == 0.0 && m.row2.y == 0.0
  }

  /** The tensor whose principal moments are xx, yy and zz. */
  function Diagonal(xx: real, yy: real, zz: real): (m: Matrix3)
    ensures IsDiagonal(m)
    ensures m.row0.x == xx && m.row1.y == yy && m.row2.z == zz
  {
    Matrix3(Vector3(xx, 0.0, 0.0), Vector3(0.0, yy, 0.0), Vector3(0.0, 0.0, zz))
  }

  function Scale(k: real, v: Vector3): Vector3
  {
    Vector3(k * v.x, k * v.y, k * v.z)
  }

  /** Direction factors of the thrust for the two gimbal angles, as written in
      the source: the x factor is cos(gy) * cos(gy), not cos(gy) * cos(gz). */
  function GimbalFactors(gimbalY: real, gimbalZ: real): Vector3
  {
    Vector3(Cos(gimbalY) * Cos(gimbalY), Sin(gimbalZ), -Sin(gimbalY))
  }

  /** State of the propulsion model that the rocket reads; only the
      propulsion model (the environment) changes it. */
  datatype Engine = Engine(burning: bool, thrust: real, gimbalAngleY: real, gimbalAngleZ: real)

  /** The burn clock created at ignition; the epoch is carried as a number. */
  datatype SequenceClock = SequenceClock(utcInit: real, countupTime: real)

  datatype Mass = Mass(propellant: real, inert: real)

  function Abs(x: real): real
  {
    if x < 0.0 then -x else x
  }

  /** Sign convention of the roll, pitch and yaw damping derivatives: a
      positive raw value is negated, anything else is kept. */
  function NonPositive(raw: real): (r: real)
    ensures r <= 0.0
    ensures Abs(r) == Abs(raw)
    ensures raw <= 0.0 ==> r == raw
  {
    if raw > 0.0 then -raw else raw
  }

  /** Applying the convention to its own result changes nothing. */
  lemma NonPositiveIdempotent(raw: real)
    ensures NonPositive(NonPositive(raw)) == NonPositive(raw)
  {
  }

  /** Inert mass after removing delta: the difference when it is positive,
      otherwise a reset to exactly 1.0. */
  function ClampInert(inert: real, delta: real): (r: real)
    ensures r > 0.0
    ensures r == inert - delta || r == 1.0
    ensures inert - delta > 0.0 ==> r == inert - delta
    ensures inert - delta <= 0.0 ==> r == 1.0
  {
    var remaining := inert - delta;
    if remaining <= 0.0 then 1.0 else remaining
  }

  /** The clamp is a reset, not a floor: a positive remainder below 1.0 is kept,
      so it differs from max(1.0, inert - delta). */
  lemma ClampIsNotAFloor()
    ensures ClampInert(1.5, 1.0) == 0.5
    ensures ClampInert(1.5, 1.0) < 1.0
  {
  }

  /** Inert mass after a series of staging events applied in order. */
  function InertAfter(inert: real, deltas: seq<real>): real
    decreases |deltas|
  {
    if deltas == [] then inert
    else ClampInert(InertAfter(inert, deltas[..|deltas| - 1]), deltas[|deltas| - 1])
  }

  /** After at least one staging event the inert mass is positive, whatever
      the removed masses; when every removed mass is non-negative it also
      never exceeds the larger of the starting mass and 1.0. */
  lemma {:induction false} InertAfterBounds(inert: real, deltas: seq<real>)
    ensures deltas != [] ==> InertAfter(inert, deltas) > 0.0
    ensures (forall i :: 0 <= i < |deltas| ==> deltas[i] >= 0.0) ==>
              InertAfter(inert, deltas) <= if inert > 1.0 then inert else 1.0
    decreases |deltas|
  {
    if deltas != [] {
      InertAfterBounds(inert, deltas[..|deltas| - 1]);
      assert forall i :: 0 <= i < |deltas| - 1 ==> deltas[..|deltas| - 1][i] == deltas[i];
    }
  }

  function Min(a: nat, b: nat): nat
  {
    if a <= b then a else b
  }

  function Sum(s: seq<real>): real
    decreases |s|
  {
    if s == [] then 0.0 else Sum(s[..|s| - 1]) + s[|s| - 1]
  }

  lemma {:induction false} SumSplit(s: seq<real>, i: nat, j: nat, k: nat)
    requires i <= j <= k <= |s|
    ensures Sum(s[i..k]) == Sum(s[i..j]) + Sum(s[j..k])
    decreases k - j
  {
    if j < k {
      SumSplit(s, i, j, k - 1);
      assert s[i..k][..k - i - 1] == s[i..k - 1];
      assert s[j..k][..k - j - 1] == s[j..k - 1];
    } else {
      assert s[j..k] == [];
    }
  }

  lemma {:induction false} SumNonNegative(s: seq<real>)
    requires forall i :: 0 <= i < |s| ==> s[i] >= 0.0
    ensures Sum(s) >= 0.0
    decreases |s|
  {
    if s != [] {
      SumNonNegative(s[..|s| - 1]);
    }
  }

  /** Deployed drag area and deployment counter. */
  datatype Parachute = Parachute(total: real, count: nat)

  /** One deployment: the increment at index count is added while the list
      has one, and the counter advances in every case. */
  function OpenOnce(increments: seq<real>, p: Parachute): (q: Parachute)
    ensures q.count == p.count + 1
    ensures q.total == p.total + Sum(increments[Min(p.count, |increments|)..Min(p.count + 1, |increments|)])
  {
    if p.count < |increments| then
      assert increments[p.count..p.count + 1] == [increments[p.count]];
      assert [increments[p.count]][..0] == [];
      Parachute(p.total + increments[p.count], p.count + 1)
    else
      assert increments[|increments|..|increments|] == [];
      Parachute(p.total, p.count + 1)
  }

  function OpenRepeatedly(increments: seq<real>, p: Parachute, n: nat): Parachute
    decreases n
  {
    if n == 0 then p else OpenOnce(increments, OpenRepeatedly(increments, p, n - 1))
  }

  /** Closed form of n deployments: the counter advances by n and the total
      gains exactly the increments between the old counter and the new one,
      cut at the end of the list. */
  lemma {:induction false} OpenRepeatedlyClosedForm(increments: seq<real>, p: Parachute, n: nat)
    ensures OpenRepeatedly(increments, p, n).count == p.count + n
    ensures OpenRepeatedly(increments, p, n).total
         == p.total + Sum(increments[Min(p.count, |increments|)..Min(p.count + n, |increments|)])
    decreases n
  {
    var lo := Min(p.count, |increments|);
    if n == 0 {
      assert increments[lo..lo] == [];
    } else {
      OpenRepeatedlyClosedForm(increments, p, n - 1);
      SumSplit(increments, lo, Min(p.count + n - 1, |increments|), Min(p.count + n, |increments|));
    }
  }

  /** With non-negative increments the counter and the total never decrease. */
  lemma {:induction false} DragNeverDecreases(increments: seq<real>, p: Parachute, n: nat)
    requires forall i :: 0 <= i < |increments| ==> increments[i] >= 0.0
    ensures OpenRepeatedly(increments, p, n).count >= p.count
    ensures OpenRepeatedly(increments, p, n).total >= p.total
  {
    OpenRepeatedlyClosedForm(increments, p, n);
    var s := increments[Min(p.count, |increments|)..Min(p.count + n, |increments|)];
    assert forall i :: 0 <= i < |s| ==> s[i] in increments;
    SumNonNegative(s);
  }

  /** The list accepts any increment, so a negative one lowers the total. */
  lemma NegativeIncrementLowersDrag()
    ensures OpenOnce([-1.0], Parachute(0.0, 0)).total < 0.0
  {
  }

  /** Deployments past the end of the list leave the total alone. */
  lemma {:induction false} ExhaustedDeploymentIsNoOp(increments: seq<real>, p: Parachute, n: nat)
    requires p.count >= |increments|
    ensures OpenRepeatedly(increments, p, n) == Parachute(p.total, p.count + n)
  {
    OpenRepeatedlyClosedForm(increments, p, n);
    assert increments[|increments|..|increments|] == [];
  }
}
