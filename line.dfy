/** The `Geometry` draft's two-dimensional line `a·x + b·y + c = 0`: the base equation
    with exactly three coefficients and the variable names `x`, `y`. */
module GeometryLine {
  import opened Wrappers
  import opened Geometry

  /** The variable names a line's text uses. */
  const LineNames: seq<string> := ["x", "y"]

  /** A line is accepted exactly when one of a, b, c is not near zero; nothing requires
      a or b in particular, so a vector such as (0, 0, 5) is a line. */
  lemma LineAcceptance(a: real, b: real, c: real)
    ensures CheckCoefficients([a, b, c]) == None
        <==> Abs(a) >= Epsilon || Abs(b) >= Epsilon || Abs(c) >= Epsilon
    ensures CheckCoefficients([0.0, 0.0, 5.0]) == None
  {
    var cs := [a, b, c];
    if Abs(a) >= Epsilon || Abs(b) >= Epsilon || Abs(c) >= Epsilon {
      var i := if Abs(a) >= Epsilon then 0 else if Abs(b) >= Epsilon then 1 else 2;
      assert Abs(cs[i]) >= Epsilon;
    } else {
      assert forall i :: 0 <= i < 3 ==> cs[i] == a || cs[i] == b || cs[i] == c;
    }
    assert [0.0, 0.0, 5.0][2] == 5.0;
  }

  /** The text of a line with coefficients a, b, c: the x term when a is not near zero, then
      the y term (opening the text if there is no x term), then the free term and " = 0". */
  lemma LineRender(a: real, b: real, c: real, numStr: real -> string)
    ensures var x := TermAt([a, b, c], LineNames, numStr, 0);
            var y := TermAt([a, b, c], LineNames, numStr, 1);
            Render([a, b, c], LineNames, numStr)
            == (if Abs(a) >= Epsilon && Abs(b) >= Epsilon then Leading(x) + Joined(y)
                else if Abs(a) >= Epsilon then Leading(x)
                else if Abs(b) >= Epsilon then Leading(y)
                else "")
               + FreeTerm(c, numStr) + " = 0"
  {
    var cs := [a, b, c];
    var x := TermAt(cs, LineNames, numStr, 0);
    var y := TermAt(cs, LineNames, numStr, 1);
    var ts := Terms(cs, LineNames, numStr, 2);
    assert Terms(cs, LineNames, numStr, 0) == [];
    assert Terms(cs, LineNames, numStr, 1) == if Abs(a) >= Epsilon then [x] else [];
    if Abs(a) >= Epsilon && Abs(b) >= Epsilon {
      JoinTermsAppend([x], y);
      JoinTermsAppend([], x);
      assert [] + [x] == [x];
    } else if Abs(a) >= Epsilon {
      JoinTermsAppend([], x);
      assert [] + [x] == [x];
    } else if Abs(b) >= Epsilon {
      JoinTermsAppend([], y);
      assert [] + [y] == [y];
    }
  }

  /** The demonstration line 2x - 4y + 8 = 0 is written `2x - 4y + 8 = 0` (numbers as the
      number-to-text conversion writes them). */
  lemma DemoLineText(numStr: real -> string)
    ensures Render([2.0, -4.0, 8.0], LineNames, numStr)
         == numStr(2.0) + "x" + " - " + numStr(4.0) + "y" + " + " + numStr(8.0) + " = 0"
  {
    var cs := [2.0, -4.0, 8.0];
    var x := TermAt(cs, LineNames, numStr, 0);
    var y := TermAt(cs, LineNames, numStr, 1);
    assert Abs(cs[0]) >= Epsilon && Abs(cs[1]) >= Epsilon;
    assert Terms(cs, LineNames, numStr, 1) == [x] by {
      assert Terms(cs, LineNames, numStr, 0) == [];
      assert [] + [x] == [x];
    }
    assert Terms(cs, LineNames, numStr, 2) == [x, y];
    JoinTermsAppend([], x);
    JoinTermsAppend([x], y);
    assert [x] + [y] == [x, y];
    var body := Leading(x) + Joined(y);
    assert Render(cs, LineNames, numStr) == body + FreeTerm(8.0, numStr) + " = 0";
    assert Leading(x) == numStr(2.0) + "x";
    assert Joined(y) == " - " + numStr(4.0) + "y";
    assert FreeTerm(8.0, numStr) == " + " + numStr(8.0);
  }

  class Line {
    /** The base part of the object: the coefficients [a, b, c]. */
    const equation: GeometricEquation

    ghost predicate Valid() {
      equation.Valid() && |equation.coefficients| == 3
    }

    constructor Init(e: GeometricEquation)
      requires e.Valid() && |e.coefficients| == 3
      ensures equation == e && Valid()
    {
      equation := e;
    }

    /** `new Line(a, b, c)`: the three coefficients go unchanged to the base constructor,
        whose all-near-zero check is the only one. */
    static method Create(a: real, b: real, c: real) returns (r: Result<Line, Error>)
      ensures r.Err? <==> Abs(a) < Epsilon && Abs(b) < Epsilon && Abs(c) < Epsilon
      ensures r.Err? ==> r.error == AllCoefficientsZero
      ensures r.Ok? ==> fresh(r.value) && fresh(r.value.equation) && r.value.Valid()
      ensures r.Ok? ==> r.value.equation.coefficients == [a, b, c] && r.value.equation.Dimension() == 2
    {
      LineAcceptance(a, b, c);
      var base := GeometricEquation.Create([a, b, c]);
      if base.Err? {
        return Err(base.error);
      }
      var line := new Line.Init(base.value);
      return Ok(line);
    }

    /** Membership of (x, y): |a·x + b·y + c| < Epsilon; any other arity is the base's
        argument error. */
    method BelongsToShape(coords: seq<real>) returns (r: Result<bool, Error>)
      requires Valid()
      ensures |coords| != 2 ==> r == Err(CoordinateCount(2))
      ensures |coords| == 2 ==> r.Ok? && (r.value <==> OnShape(equation.coefficients, coords))
    {
      var value := equation.Evaluate(coords);
      if value.Err? {
        return Err(value.error);
      }
      return Ok(Abs(value.value) < Epsilon);
    }

    /** The line's text: the base formatting with the names x and y. */
    method ToString(numStr: real -> string) returns (s: string)
      requires Valid() && NonEmptyRendering(numStr)
      ensures s == Render(equation.coefficients, LineNames, numStr)
      ensures |s| >= 4 && s[|s| - 4..] == " = 0"
    {
      s := equation.FormatEquation(LineNames, numStr);
      RenderEndsWithEqualsZero(equation.coefficients, LineNames, numStr);
    }
  }

  /** The demonstration line 2x - 4y + 8 = 0 passes through (2, 3) but not (1, 1). */
  lemma DemoLineMembership()
    ensures OnShape([2.0, -4.0, 8.0], [2.0, 3.0])
    ensures !OnShape([2.0, -4.0, 8.0], [1.0, 1.0])
  {
    AffineOfPlane([2.0, -4.0, 8.0], [2.0, 3.0]);
    AffineOfPlane([2.0, -4.0, 8.0], [1.0, 1.0]);
  }
}
