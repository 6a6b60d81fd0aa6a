/** The `Geometry` draft's hyperplane `c1·x1 + … + cn·xn + cfree = 0`: the base equation
    with any accepted coefficient vector and the generated variable names `x1 … xn`. */
module GeometryHyperPlane {
  import opened Wrappers
  import opened Geometry
  import opened Decimal

  /** The names `x1, x2, …, xn` for `n` variables. */
  function VariableNames(n: nat): (names: seq<string>)
    ensures |names| == n
    ensures forall i :: 0 <= i < n ==> |names[i]| >= 2 && names[i][0] == 'x'
  {
    seq(n, (i: nat) => "x" + NatToString(i + 1))
  }

  /** Name `i` is "x" followed by the decimal form of i + 1, and no two names coincide. */
  lemma VariableNamesDistinct(n: nat, i: nat, j: nat)
    requires i < n && j < n
    ensures VariableNames(n)[i] == "x" + NatToString(i + 1)
    ensures VariableNames(n)[i] == VariableNames(n)[j] ==> i == j
  {
    var names := VariableNames(n);
    if names[i] == names[j] {
      assert names[i][1..] == NatToString(i + 1);
      assert names[j][1..] == NatToString(j + 1);
      NatToStringInjective(i + 1, j + 1);
    }
  }

  class HyperPlane {
    /** The base part of the object: the coefficients [c1, …, cn, cfree]. */
    const equation: GeometricEquation

    ghost predicate Valid() {
      equation.Valid()
    }

    constructor Init(e: GeometricEquation)
      requires e.Valid()
      ensures equation == e && Valid()
    {
      equation := e;
    }

    /** `new HyperPlane(coefficients)`: exactly the base constructor's checks, nothing more. */
    static method Create(cs: seq<real>) returns (r: Result<HyperPlane, Error>)
      ensures r.Err? <==> CheckCoefficients(cs).Some?
      ensures r.Err? ==> Some(r.error) == CheckCoefficients(cs)
      ensures r.Ok? ==> fresh(r.value) && fresh(r.value.equation) && r.value.Valid()
      ensures r.Ok? ==> r.value.equation.coefficients == cs
    {
      var base := GeometricEquation.Create(cs);
      if base.Err? {
        return Err(base.error);
      }
      var plane := new HyperPlane.Init(base.value);
      return Ok(plane);
    }

    /** Membership: |Evaluate(coords)| < Epsilon; a point of the wrong arity is the base's
        argument error. */
    method BelongsToShape(coords: seq<real>) returns (r: Result<bool, Error>)
      requires Valid()
      ensures |coords| + 1 != |equation.coefficients| ==>
                r == Err(CoordinateCount(|equation.coefficients| - 1))
      ensures |coords| + 1 == |equation.coefficients| ==>
                r.Ok? && (r.value <==> OnShape(equation.coefficients, coords))
    {
      var value := equation.Evaluate(coords);
      if value.Err? {
        return Err(value.error);
      }
      return Ok(Abs(value.value) < Epsilon);
    }

    /** The hyperplane's text: the base formatting with the names x1 … xn. */
    method ToString(numStr: real -> string) returns (s: string)
      requires Valid() && NonEmptyRendering(numStr)
      ensures s == Render(equation.coefficients, VariableNames(|equation.coefficients| - 1), numStr)
      ensures |s| >= 4 && s[|s| - 4..] == " = 0"
    {
      var names := VariableNames(|equation.coefficients| - 1);
      s := equation.FormatEquation(names, numStr);
      RenderEndsWithEqualsZero(equation.coefficients, names, numStr);
    }
  }

  /** The demonstration hyperplane x1 + x2 + x3 + x4 - 4 = 0 contains (1, 1, 1, 1), where it
      evaluates to 0, and not (1, 2, 3, 4), where it evaluates to 6. */
  lemma DemoHyperPlaneMembership()
    ensures Affine([1.0, 1.0, 1.0, 1.0, -4.0], [1.0, 1.0, 1.0, 1.0]) == 0.0
    ensures OnShape([1.0, 1.0, 1.0, 1.0, -4.0], [1.0, 1.0, 1.0, 1.0])
    ensures Affine([1.0, 1.0, 1.0, 1.0, -4.0], [1.0, 2.0, 3.0, 4.0]) == 6.0
    ensures !OnShape([1.0, 1.0, 1.0, 1.0, -4.0], [1.0, 2.0, 3.0, 4.0])
  {
    AffineOfSpace([1.0, 1.0, 1.0, 1.0, -4.0], [1.0, 1.0, 1.0, 1.0]);
    AffineOfSpace([1.0, 1.0, 1.0, 1.0, -4.0], [1.0, 2.0, 3.0, 4.0]);
  }
}
