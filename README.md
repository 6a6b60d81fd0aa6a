# Linear equations: lines and hyperplanes

This project is a Dafny model of a small object model for linear geometric equations
`c1·x1 + … + cn·xn + cfree = 0`. The repository holds two drafts of the same classes, and
both are modelled.

- **The `Geometry` draft** (`GeometricEquation.cs`, `Line.cs`, `HyperPlane.cs`):
  - An abstract `GeometricEquation` owns a coefficient vector `[c1, …, cn, cfree]`.
  - Its constructor rejects an empty vector. It also rejects a vector whose entries are all
    within `Epsilon = 1e-12` of zero.
  - `Evaluate` checks the arity of a point and computes `cfree + Σ ci·xi` in a loop.
  - `FormatEquation` builds the text `"<terms> = 0"` in a loop.
  - `Line` passes `(a, b, c)` to the base and names its variables `x`, `y`.
  - `HyperPlane` passes any vector to the base and names its variables `x1 … xn`.
  - In both, `BelongsToShape` is `|Evaluate(point)| < Epsilon`.
- **The legacy draft** (`Program.cs`):
  - It has fixed single-precision fields `A, B, C`, plus `D, E` for the 4-D hyperplane.
  - Its checks compare with zero exactly.
  - Its membership tolerance is `1e-6`.
  - Its `BelongsToShape` answers `false` for a point of the wrong arity instead of failing.

Modules follow the source files:

- `Geometry` (`geometric_equation.dfy`) holds the base class and the specification functions
  `Affine` (the value of the left-hand side at a point), `OnShape` and `Render` (the
  canonical text).
- `GeometryLine` (`line.dfy`) and `GeometryHyperPlane` (`hyper_plane.dfy`) hold the two
  variants.
- `Legacy` (`legacy.dfy`) holds the legacy draft.
- `Decimal` (`decimal.dfy`) renders `i + 1` in decimal for the names `x1 … xn`.
- `Wrappers` (`wrappers.dfy`) holds `Option` and `Result`.

Modelling choices:

- A C# `ArgumentException` becomes the `Err` case of a `Result`. Each draft (`Geometry`,
  `Legacy`) has its own `Error` datatype naming the violated condition. `GeometryLine` and
  `GeometryHyperPlane` reuse `Geometry.Error`.
- A throwing constructor becomes a static `Create` method. It returns either a fresh object or
  the error. A plain constructor `Init` takes an already validated input.
- A `readonly` field becomes a `const` field. Membership and formatting therefore cannot
  change the coefficients. The coefficient vector is a value (`seq<real>`). The source's
  array can still be changed by the caller that passed it in; see "Left out".
- C# inheritance becomes composition. A line or hyperplane holds its base part as a `const`
  field (`equation`, or `base` in the legacy draft), and its methods delegate to it as the
  source's do.
- `float` and `double` arithmetic is modelled over `real`.
- C#'s number-to-text conversion is the parameter `numStr: real -> string`. Only one thing
  is assumed of it (`NonEmptyRendering`): it never yields the empty string. The formatting
  loop depends on that, because it tests whether the text built so far is empty.
- `Dimension` is not implemented by any class of the source. It is defined as the
  coefficient count minus one, following the comment on the interface (`IShape.cs:10-14`).

Some behaviour of the code, stated explicitly:

- The newer `Line` has no check that `a` and `b` are not both zero, so `(0, 0, 5)` is
  accepted. Its text is then `" + 5 = 0"`, with a leading separator.
- The newer draft prints a coefficient's numeral even when it is 1 (`1x`, not `x`). It does
  no rounding to three decimals and has no `"0 = 0"` branch.
- The newer `HyperPlane` accepts a one-entry vector, which has dimension 0.
- Neither draft has a `Normalize` operation.
- The newer base constructor keeps the caller's array itself, not a copy
  (GeometricEquation.cs:19). `HyperPlane` passes its `params` array straight through
  (HyperPlane.cs:5). `readonly` fixes only the reference. A caller that keeps the array can
  therefore change a constructed hyperplane's coefficients afterwards, even to all zero. The
  model does not capture this (see "Left out").

The legacy `HyperPlane` runs the base check on `a, b, c` before its own check on
`a, b, c, d`. Its own check can therefore never fire. The model proves this, and shows that
`x4 - 4 = 0` is rejected.

## Model

| member | source | states |
|---|---|---|
| `Geometry.CheckCoefficients` | GeometricEquation.cs:13-17 | No error exactly when the vector is non-empty and some entry has magnitude at least 1e-12. An empty vector gives `EmptyCoefficients`. A non-empty, all-near-zero vector gives `AllCoefficientsZero`. |
| `Geometry.GeometricEquation.Init` | GeometricEquation.cs:19 | The object stores exactly the given coefficients. |
| `Geometry.GeometricEquation.Create` | GeometricEquation.cs:8-20 | Fails exactly when `CheckCoefficients` reports an error, and with that error. Otherwise returns a fresh equation whose coefficients are the input, unchanged, and which is well formed. |
| `Geometry.GeometricEquation.Dimension` | IShape.cs:10-14 | The number of variables. It is non-negative for every constructed equation. |
| `Geometry.GeometricEquation.Evaluate` | GeometricEquation.cs:22-35 | For a point whose length is not `Dimension()`, the error `CoordinateCount(Dimension())`. Otherwise the loop's sum equals `Affine`: the free term plus Σ `c[i]·x[i]`. |
| `Geometry.AffineAtOrigin` | GeometricEquation.cs:30-34 | At the all-zero point the value is the free term. |
| `Geometry.AffineOfPlane` | GeometricEquation.cs:30-32 | With three coefficients the value is `a·x + b·y + c`. |
| `Geometry.AffineOfSpace` | GeometricEquation.cs:30-32 | With five coefficients the value is `a·x1 + b·x2 + c·x3 + d·x4 + e`. |
| `Geometry.Shown` | GeometricEquation.cs:43-46 | The indices of the variable coefficients that get a term. Each is below the count, has magnitude at least 1e-12, and they strictly increase. |
| `Geometry.ShownComplete` | GeometricEquation.cs:43-46 | Every variable coefficient of magnitude at least 1e-12 gets a term. |
| `Geometry.NoneShown` | GeometricEquation.cs:43-46 | When every variable coefficient is near zero, none gets a term. |
| `Geometry.FirstShown` | GeometricEquation.cs:43-46 | The first term belongs to the first coefficient that is not near zero. |
| `Geometry.TermsAreShownCoefficients` | GeometricEquation.cs:43-54 | One term per shown coefficient, in index order. Term k is `numStr(|c|)` followed by that index's name, and carries the sign of `c`. |
| `Geometry.JoinTermsAppend` | GeometricEquation.cs:48-53 | Adding a term to an empty text writes it with `"- "` only if negative. Adding it after earlier terms writes `" + "` or `" - "` by sign, then the term. |
| `Geometry.AppendTerm` | GeometricEquation.cs:48-53 | Appending the separator chosen by whether the text is empty and by the term's sign, then the term's text, to the text of a term list gives the text of that list extended by the term. |
| `Geometry.EmitTerm` | GeometricEquation.cs:43-53 | One pass of the loop for a coefficient that is not near zero. The separator comes from testing whether the text is empty and the coefficient's sign, then `numStr(|c|)` and the name are appended. This turns the text of the first i coefficients' terms into the text of the first i + 1, and leaves it non-empty. |
| `Geometry.SkipTerm` | GeometricEquation.cs:43-46 | A near-zero variable coefficient adds no term. |
| `Geometry.FirstTerm` | GeometricEquation.cs:43-54 | The first term is the term of the first coefficient that is not near zero. |
| `Geometry.JoinTermsOpens` | GeometricEquation.cs:48-53 | The text of a non-empty term list, followed by anything, begins with its first term written as a leading term. |
| `Geometry.RenderOpensWithFirstTerm` | GeometricEquation.cs:48-53 | When some variable coefficient is shown, the text begins with the first one's term. There is no `" + "` before it, and `"- "` only when it is negative. |
| `Geometry.RenderOnlyFreeTerm` | GeometricEquation.cs:56-60 | When no variable coefficient is shown, the text is the free term (with its `" + "`/`" - "` separator, or empty when near zero) followed by `" = 0"`. |
| `Geometry.RenderEndsWithEqualsZero` | GeometricEquation.cs:60-61 | Every text ends with `" = 0"`. |
| `Geometry.GeometricEquation.FormatEquation` | GeometricEquation.cs:39-62 | The string the loop builds is `Render`: the shown terms joined by the sign rules, then the free term when not near zero, then `" = 0"`. |
| `GeometryLine.LineAcceptance` | Line.cs:5 | `Line(a, b, c)` is accepted exactly when one of a, b, c has magnitude at least 1e-12. In particular `(0, 0, 5)` is accepted. |
| `GeometryLine.Line.Init` | Line.cs:5 | The line's base part is the given equation, which is well formed and has exactly three coefficients. |
| `GeometryLine.Line.Create` | Line.cs:5 | Fails with `AllCoefficientsZero` exactly when a, b and c are all near zero. Otherwise the base part holds `[a, b, c]` unchanged and has dimension 2. |
| `GeometryLine.Line.BelongsToShape` | Line.cs:7-8 | For two coordinates, true exactly when the base value is within 1e-12 of zero. By `AffineOfPlane` that value is `a·x + b·y + c`. For any other count, the base's `CoordinateCount(2)` error. |
| `GeometryLine.Line.ToString` | Line.cs:10-11 | The base text with the names `x`, `y`. It ends with `" = 0"`. |
| `GeometryLine.LineRender` | Line.cs:10-11 | A line's text for every combination of near-zero a and b: the x term, then the y term (which opens the text when there is no x term), then the free term and `" = 0"`. |
| `GeometryLine.DemoLineText` | Line.cs:10-11 | `2x - 4y + 8 = 0` is written `numStr(2) + "x - " + numStr(4) + "y + " + numStr(8) + " = 0"`. |
| `GeometryLine.DemoLineMembership` | Line.cs:7-8 | The line 2x - 4y + 8 = 0 contains (2, 3) and not (1, 1). |
| `Decimal.NatToString` | HyperPlane.cs:14 | The decimal form of a natural number: non-empty, digits only, no leading zero. |
| `Decimal.NatToStringRoundTrip` | HyperPlane.cs:14 | Reading the decimal form back gives the number. |
| `Decimal.NatToStringInjective` | HyperPlane.cs:14 | Different numbers have different decimal forms. |
| `GeometryHyperPlane.VariableNames` | HyperPlane.cs:13-15 | Exactly n names, each `"x"` followed by at least one more character. |
| `GeometryHyperPlane.VariableNamesDistinct` | HyperPlane.cs:13-15 | Name i is `"x"` followed by the decimal form of i + 1, and no two names are equal. |
| `GeometryHyperPlane.HyperPlane.Init` | HyperPlane.cs:5 | The hyperplane's base part is the given, well-formed equation. |
| `GeometryHyperPlane.HyperPlane.Create` | HyperPlane.cs:5 | Accepts exactly the vectors the base accepts and fails with the base's error. The base part holds the vector unchanged. |
| `GeometryHyperPlane.HyperPlane.BelongsToShape` | HyperPlane.cs:7-8 | For a point of length `|coefficients| - 1`, true exactly when `|Affine| < 1e-12`. Otherwise the base's `CoordinateCount` error. |
| `GeometryHyperPlane.HyperPlane.ToString` | HyperPlane.cs:10-18 | The base text with the generated names `x1 … xn`. It ends with `" = 0"`. |
| `GeometryHyperPlane.DemoHyperPlaneMembership` | HyperPlane.cs:7-8 | For x1 + x2 + x3 + x4 - 4 = 0, the point (1, 1, 1, 1) evaluates to 0 and belongs. The point (1, 2, 3, 4) evaluates to 6 and does not belong. |
| `Legacy.GeometricEquation.Init` | Program.cs:21-23 | The readonly fields A, B, C hold exactly the given values. |
| `Legacy.GeometricEquation.Create` | Program.cs:15-26 | Fails with `BaseCoefficientsZero` exactly when a, b and c are all exactly 0, with no tolerance. Otherwise stores them. |
| `Legacy.LineCheck` | Program.cs:46-52 | With the base check first and the line check second, a line is accepted exactly when a ≠ 0 or b ≠ 0. `BaseCoefficientsZero` arises exactly for a = b = c = 0, and `LineNormalZero` exactly for a = b = 0, c ≠ 0. |
| `Legacy.Line.Init` | Program.cs:46-48 | The line's base part is the given equation, whose A and B are not both zero. |
| `Legacy.Line.Create` | Program.cs:46-52 | Fails exactly when `LineCheck` reports an error, and with that error. Otherwise the fields hold a, b, c. |
| `Legacy.Line.BelongsToShape` | Program.cs:64-70 | Never true, and never an error, for a number of coordinates other than 2. |
| `Legacy.LineMembership` | Program.cs:64-77 | True exactly when there are 2 coordinates and the general value `Affine([A, B, C], point)` is within 1e-6 of zero. |
| `Legacy.HyperPlaneCheck` | Program.cs:85-90 | A hyperplane is accepted exactly when one of a, b, c is nonzero, whatever d is. The base check runs first: `BaseCoefficientsZero` arises exactly for a = b = c = 0. The error `HyperPlaneNormalZero` never arises. |
| `Legacy.HyperPlaneRejectsZeroLeadingThree` | Program.cs:85-90 | `HyperPlane(0, 0, 0, 1, e)` is rejected by the base check. |
| `Legacy.HyperPlane.Init` | Program.cs:92-93 | The readonly fields D, E hold exactly the given values. |
| `Legacy.HyperPlane.Create` | Program.cs:85-95 | Fails exactly when `HyperPlaneCheck` reports an error, and with that error. Otherwise the fields hold a, b, c, d, e. |
| `Legacy.HyperPlane.BelongsToShape` | Program.cs:107-113 | Never true, and never an error, for a number of coordinates other than 4. |
| `Legacy.HyperPlaneMembership` | Program.cs:107-124 | True exactly when there are 4 coordinates and `Affine([A, B, C, D, E], point)` is within 1e-6 of zero. |
| `Legacy.LineToleranceWider` | Program.cs:76 | A point the newer draft's test accepts for the same coefficients (within 1e-12) is accepted by the legacy line (within 1e-6). |
| `Legacy.HyperPlaneToleranceWider` | Program.cs:123 | The same for the legacy hyperplane. |
| `Legacy.DraftsDisagreeOnZeroNormal` | Program.cs:48-49 | The legacy line rejects (0, 0, 5) with `LineNormalZero`. The newer draft's check accepts it. |
| `Legacy.DemoLine` | Program.cs:134-139 | The line 2x - 4y + 8 = 0 contains (2, 3) and not (1, 1). |
| `Legacy.DemoHyperPlane` | Program.cs:144-149 | The hyperplane x1 + x2 + x3 + x4 - 4 = 0 contains (1, 1, 1, 1) and not (1, 2, 3, 4). |

## Left out

- Floating point: all arithmetic is over `real`. The membership results are statements in
  exact arithmetic. The rounding of `float` and `double`, and the fact that `1e-6f` is not
  exactly 10⁻⁶, are not modelled.
- C#'s number-to-text conversion inside string interpolation is not modelled. It is the
  parameter `numStr`, assumed only never to return the empty string.
- Null arguments (`ArgumentNullException`, GeometricEquation.cs:10-11 and 24-25) cannot
  occur, because Dafny sequences are never null.
- GeometryHyperPlane.HyperPlane.Create: the source stores a reference to the caller's
  array (GeometricEquation.cs:19, HyperPlane.cs:5). Later writes by the caller change the
  equation, possibly to all near zero, which the constructor's check would have rejected.
  The model stores an immutable `seq` copy. So `Valid()` holds for the object's whole
  lifetime, and this aliasing is not captured. The same holds for
  `Geometry.GeometricEquation.Create`. A `Line` is unaffected, because `base(a, b, c)` builds
  a fresh array.
- Geometry.GeometricEquation.FormatEquation: requires a name for every variable. In the
  source, a shorter name array throws `IndexOutOfRangeException` only when a shown
  coefficient has no name. Both callers pass a full list.
- The legacy `PrintEquation` methods, `Main` and every console message only print, so they
  are left out.
- The finalizers `~GeometricEquation`, `~Line` and `~HyperPlane` are garbage-collector hooks
  that only log, so they are left out.
- `IShape.cs` is an interface without behaviour. Only its comment on `Dimension` is used. No
  class implements `Dimension` or a string-returning `PrintEquation`.
- Inheritance and virtual dispatch: a line or hyperplane holds its base part as a separate
  object rather than being one object. Dispatch through the base type is not modelled.
