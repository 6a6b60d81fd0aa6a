/** The legacy draft: a 2-D line and a 4-D hyperplane over fixed single-precision
    coefficient fields, with exact-zero validation, tolerance 1e-6 and a membership test that
    answers `false` instead of failing on a point of the wrong arity. */
module Legacy {
  import opened Wrappers
  import Geometry

  /** Tolerance of the membership test (1e-6). */
  const Epsilon: real := 0.000001

  /** The conditions under which the legacy constructors throw an `ArgumentException`. */
  datatype Error =
    | BaseCoefficientsZero   // a = b = c = 0, caught by the base constructor
    | LineNormalZero         // a = b = 0 for a line
    | HyperPlaneNormalZero   // a = b = c = d = 0 for a hyperplane

  /** The checks a line's construction runs, in order: the base constructor's, then the line's. */
  function LineCheck(a: real, b: real, c: real): (e: Option<Error>)
    ensures e == None <==> a != 0.0 || b != 0.0
    ensures e == Some(BaseCoefficientsZero) <==> a == 0.0 && b == 0.0 && c == 0.0
    ensures e == Some(LineNormalZero) <==> a == 0.0 && b == 0.0 && c != 0.0
  {
    if a == 0.0 && b == 0.0 && c == 0.0 then Some(BaseCoefficientsZero)
    else if a == 0.0 && b == 0.0 then Some(LineNormalZero)
    else None
  }

  /** The checks a hyperplane's construction runs, in order: the base constructor's on a, b, c,
      then the hyperplane's on a, b, c, d. The base check has already rejected every input the
      second one would, so d never decides acceptance and the second error never arises. */
  function HyperPlaneCheck(a: real, b: real, c: real, d: real): (e: Option<Error>)
    ensures e == None <==> a != 0.0 || b != 0.0 || c != 0.0
    ensures e == Some(BaseCoefficientsZero) <==> a == 0.0 && b == 0.0 && c == 0.0
    ensures e != Some(HyperPlaneNormalZero)
  {
    if a == 0.0 && b == 0.0 && c == 0.0 then Some(BaseCoefficientsZero)
    else if a == 0.0 && b == 0.0 && c == 0.0 && d == 0.0 then Some(HyperPlaneNormalZero)
    else None
  }

  /** The hyperplane x4 - 4 = 0 is rejected although its normal (0, 0, 0, 1) is not zero. */
  lemma HyperPlaneRejectsZeroLeadingThree()
    ensures HyperPlaneCheck(0.0, 0.0, 0.0, 1.0) == Some(BaseCoefficientsZero)
  {
  }

  class GeometricEquation {
    const coefficientA: real
    const coefficientB: real
    const coefficientC: real

    constructor Init(a: real, b: real, c: real)
      requires a != 0.0 || b != 0.0 || c != 0.0
      ensures coefficientA == a && coefficientB == b && coefficientC == c
    {
      coefficientA, coefficientB, coefficientC := a, b, c;
    }

    /** The base constructor: rejects a = b = c = 0 exactly (no tolerance). */
    static method Create(a: real, b: real, c: real) returns (r: Result<GeometricEquation, Error>)
      ensures r.Err? <==> a == 0.0 && b == 0.0 && c == 0.0
      ensures r.Err? ==> r.error == BaseCoefficientsZero
      ensures r.Ok? ==> fresh(r.value)
      ensures r.Ok? ==> r.value.coefficientA == a && r.value.coefficientB == b && r.value.coefficientC == c
    {
      if a == 0.0 && b == 0.0 && c == 0.0 {
        return Err(BaseCoefficientsZero);
      }
      var equation := new GeometricEquation.Init(a, b, c);
      return Ok(equation);
    }
  }

  class Line {
    /** The base part of the object: the fields A, B, C. */
    const base: GeometricEquation

    ghost predicate Valid() {
      base.coefficientA != 0.0 || base.coefficientB != 0.0
    }

    constructor Init(e: GeometricEquation)
      requires e.coefficientA != 0.0 || e.coefficientB != 0.0
      ensures base == e && Valid()
    {
      base := e;
    }

    /** The coefficient vector [A, B, C] the line stands for. */
    function Coefficients(): seq<real> {
      [base.coefficientA, base.coefficientB, base.coefficientC]
    }

    /** `new Line(a, b, c)`: the base check, then a = b = 0 is rejected. */
    static method Create(a: real, b: real, c: real) returns (r: Result<Line, Error>)
      ensures r.Err? <==> LineCheck(a, b, c).Some?
      ensures r.Err? ==> Some(r.error) == LineCheck(a, b, c)
      ensures r.Ok? ==> fresh(r.value) && fresh(r.value.base) && r.value.Valid()
      ensures r.Ok? ==> r.value.Coefficients() == [a, b, c]
    {
      var base := GeometricEquation.Create(a, b, c);
      if base.Err? {
        return Err(base.error);
      }
      if a == 0.0 && b == 0.0 {
        return Err(LineNormalZero);
      }
      var line := new Line.Init(base.value);
      return Ok(line);
    }

    /** Membership of (x, y): a·x + b·y + c within 1e-6 of zero; any other number of
        coordinates gives `false`. */
    function BelongsToShape(coords: seq<real>): (r: bool)
      ensures r ==> |coords| == 2
    {
      if |coords| != 2 then false
      else
        var x, y := coords[0], coords[1];
        Geometry.Abs(base.coefficientA * x + base.coefficientB * y + base.coefficientC) < Epsilon
    }
  }

  /** A legacy line's membership is the general affine evaluation of [A, B, C] at the point,
      compared with 1e-6. */
  lemma LineMembership(l: Line, coords: seq<real>)
    ensures l.BelongsToShape(coords)
        <==> |coords| == 2 && Geometry.Abs(Geometry.Affine(l.Coefficients(), coords)) < Epsilon
  {
    if |coords| == 2 {
      var cs := l.Coefficients();
      Geometry.AffineOfPlane(cs, coords);
      assert cs[0] == l.base.coefficientA && cs[1] == l.base.coefficientB && cs[2] == l.base.coefficientC;
      assert Geometry.Affine(cs, coords)
          == l.base.coefficientA * coords[0] + l.base.coefficientB * coords[1] + l.base.coefficientC;
      assert l.BelongsToShape(coords)
          == (Geometry.Abs(l.base.coefficientA * coords[0] + l.base.coefficientB * coords[1]
                           + l.base.coefficientC) < Epsilon);
    }
  }


  class HyperPlane {
    /** The base part of the object: the fields A, B, C. */
    const base: GeometricEquation
    const coefficientD: real
    const coefficientE: real

    ghost predicate Valid() {
      base.coefficientA != 0.0 || base.coefficientB != 0.0 || base.coefficientC != 0.0
    }

    constructor Init(eq: GeometricEquation, d: real, e: real)
      requires eq.coefficientA != 0.0 || eq.coefficientB != 0.0 || eq.coefficientC != 0.0
      ensures base == eq && coefficientD == d && coefficientE == e && Valid()
    {
      base, coefficientD, coefficientE := eq, d, e;
    }

    /** `new HyperPlane(a, b, c, d, e)`: the base check on a, b, c, then a = b = c = d = 0. */
    static method Create(a: real, b: real, c: real, d: real, e: real) returns (r: Result<HyperPlane, Error>)
      ensures r.Err? <==> HyperPlaneCheck(a, b, c, d).Some?
      ensures r.Err? ==> Some(r.error) == HyperPlaneCheck(a, b, c, d)
      ensures r.Ok? ==> fresh(r.value) && fresh(r.value.base) && r.value.Valid()
      ensures r.Ok? ==> r.value.Coefficients() == [a, b, c, d, e]
    {
      var base := GeometricEquation.Create(a, b, c);
      if base.Err? {
        return Err(base.error);
      }
      if a == 0.0 && b == 0.0 && c == 0.0 && d == 0.0 {
        // never taken: the base constructor has already rejected a = b = c = 0
        return Err(HyperPlaneNormalZero);
      }
      var plane := new HyperPlane.Init(base.value, d, e);
      return Ok(plane);
    }

    /** The coefficient vector [A, B, C, D, E] the hyperplane stands for. */
    function Coefficients(): seq<real> {
      [base.coefficientA, base.coefficientB, base.coefficientC, coefficientD, coefficientE]
    }

    /** Membership of (x1, x2, x3, x4): the left-hand side within 1e-6 of zero; any other
        number of coordinates gives `false`. */
    function BelongsToShape(coords: seq<real>): (r: bool)
      ensures r ==> |coords| == 4
    {
      if |coords| != 4 then false
      else
        var x1, x2, x3, x4 := coords[0], coords[1], coords[2], coords[3];
        var sum := base.coefficientA * x1 + base.coefficientB * x2 + base.coefficientC * x3
                   + coefficientD * x4 + coefficientE;
        Geometry.Abs(sum) < Epsilon
    }
  }

  /** A legacy hyperplane's membership is the general affine evaluation of [A, B, C, D, E] at
      the point, compared with 1e-6. */
  lemma HyperPlaneMembership(h: HyperPlane, coords: seq<real>)
    ensures h.BelongsToShape(coords)
        <==> |coords| == 4 && Geometry.Abs(Geometry.Affine(h.Coefficients(), coords)) < Epsilon
  {
    if |coords| == 4 {
      var cs := h.Coefficients();
      Geometry.AffineOfSpace(cs, coords);
      assert cs[0] == h.base.coefficientA && cs[1] == h.base.coefficientB
          && cs[2] == h.base.coefficientC && cs[3] == h.coefficientD && cs[4] == h.coefficientE;
      assert Geometry.Affine(cs, coords)
          == h.base.coefficientA * coords[0] + h.base.coefficientB * coords[1]
             + h.base.coefficientC * coords[2] + h.coefficientD * coords[3] + h.coefficientE;
      assert h.BelongsToShape(coords)
          == (Geometry.Abs(h.base.coefficientA * coords[0] + h.base.coefficientB * coords[1]
                           + h.base.coefficientC * coords[2] + h.coefficientD * coords[3]
                           + h.coefficientE) < Epsilon);
    }
  }


  /** Every point within the newer draft's tolerance (1e-12) is within the legacy one (1e-6):
      a legacy line accepts at least the points its newer counterpart accepts. */
  lemma LineToleranceWider(l: Line, coords: seq<real>)
    requires |coords| == 2 && Geometry.OnShape(l.Coefficients(), coords)
    ensures l.BelongsToShape(coords)
  {
    LineMembership(l, coords);
  }

  /** The same for the 4-D hyperplane. */
  lemma HyperPlaneToleranceWider(h: HyperPlane, coords: seq<real>)
    requires |coords| == 4 && Geometry.OnShape(h.Coefficients(), coords)
    ensures h.BelongsToShape(coords)
  {
    HyperPlaneMembership(h, coords);
  }

  /** The two drafts disagree on the line 5 = 0: the legacy line rejects (0, 0, 5), the newer
      draft's base check accepts it. */
  lemma DraftsDisagreeOnZeroNormal()
    ensures LineCheck(0.0, 0.0, 5.0) == Some(LineNormalZero)
    ensures Geometry.CheckCoefficients([0.0, 0.0, 5.0]) == None
  {
    assert Geometry.Abs([0.0, 0.0, 5.0][2]) >= Geometry.Epsilon;
  }

  /** The demonstration line 2x - 4y + 8 = 0 contains (2, 3) and not (1, 1). */
  lemma DemoLine(l: Line)
    requires l.Coefficients() == [2.0, -4.0, 8.0]
    ensures l.BelongsToShape([2.0, 3.0]) && !l.BelongsToShape([1.0, 1.0])
  {
    LineMembership(l, [2.0, 3.0]);
    LineMembership(l, [1.0, 1.0]);
    Geometry.AffineOfPlane([2.0, -4.0, 8.0], [2.0, 3.0]);
    Geometry.AffineOfPlane([2.0, -4.0, 8.0], [1.0, 1.0]);
  }

  /** The demonstration hyperplane x1 + x2 + x3 + x4 - 4 = 0 contains (1, 1, 1, 1) and not
      (1, 2, 3, 4). */
  lemma DemoHyperPlane(h: HyperPlane)
    requires h.Coefficients() == [1.0, 1.0, 1.0, 1.0, -4.0]
    ensures h.BelongsToShape([1.0, 1.0, 1.0, 1.0]) && !h.BelongsToShape([1.0, 2.0, 3.0, 4.0])
  {
    HyperPlaneMembership(h, [1.0, 1.0, 1.0, 1.0]);
    HyperPlaneMembership(h, [1.0, 2.0, 3.0, 4.0]);
    Geometry.AffineOfSpace([1.0, 1.0, 1.0, 1.0, -4.0], [1.0, 1.0, 1.0, 1.0]);
    Geometry.AffineOfSpace([1.0, 1.0, 1.0, 1.0, -4.0], [1.0, 2.0, 3.0, 4.0]);
  }
}
