/** The `Geometry` draft's abstract base: a linear equation `c1·x1 + … + cn·xn + cfree = 0`
    given by its coefficient vector `[c1, …, cn, cfree]`, with validation, evaluation at a
    point and the canonical textual form. */
module Geometry {
  import opened Wrappers

  /** Tolerance under which a coefficient or a value counts as zero (1e-12). */
  const Epsilon: real := 0.000000000001

  /** The conditions under which the draft throws an `ArgumentException`. */
  datatype Error =
    | EmptyCoefficients          // no coefficient at all
    | AllCoefficientsZero        // every coefficient within Epsilon of zero
    | CoordinateCount(expected: int)  // a point whose arity is not the dimension

  function Abs(x: real): (r: real)
    ensures r >= 0.0 && (r == x || r == -x)
  {
    if x < 0.0 then -x else x
  }

  predicate AllNearZero(cs: seq<real>) {
    forall i :: 0 <= i < |cs| ==> Abs(cs[i]) < Epsilon
  }

  /** What every constructed equation satisfies. */
  ghost predicate WellFormed(cs: seq<real>) {
    |cs| >= 1 && exists i :: 0 <= i < |cs| && Abs(cs[i]) >= Epsilon
  }

  /** The constructor's validation: the error it throws for `cs`, if any. */
  function CheckCoefficients(cs: seq<real>): (e: Option<Error>)
    ensures e == None <==> WellFormed(cs)
    ensures |cs| == 0 ==> e == Some(EmptyCoefficients)
    ensures |cs| > 0 && e != None ==> e == Some(AllCoefficientsZero)
  {
    if |cs| == 0 then Some(EmptyCoefficients)
    else if AllNearZero(cs) then Some(AllCoefficientsZero)
    else None
  }

  // ---------------------------------------------------------------------------
  // Evaluation

  /** Σ cs[i]·xs[i], summed from the first index upwards. */
  function Dot(cs: seq<real>, xs: seq<real>): real
    requires |cs| == |xs|
    decreases |xs|
  {
    if |xs| == 0 then 0.0
    else Dot(cs[..|xs| - 1], xs[..|xs| - 1]) + cs[|xs| - 1] * xs[|xs| - 1]
  }

  /** The value of the equation's left-hand side at point `xs`: free term plus Σ ci·xi. */
  function Affine(cs: seq<real>, xs: seq<real>): real
    requires |xs| + 1 == |cs|
  {
    cs[|cs| - 1] + Dot(cs[..|xs|], xs)
  }

  /** Membership: the point satisfies the equation within Epsilon. */
  predicate OnShape(cs: seq<real>, xs: seq<real>)
    requires |xs| + 1 == |cs|
  {
    Abs(Affine(cs, xs)) < Epsilon
  }

  lemma {:induction false} DotAtOrigin(cs: seq<real>, xs: seq<real>)
    requires |cs| == |xs|
    requires forall i :: 0 <= i < |xs| ==> xs[i] == 0.0
    ensures Dot(cs, xs) == 0.0
    decreases |xs|
  {
    if |xs| > 0 {
      DotAtOrigin(cs[..|xs| - 1], xs[..|xs| - 1]);
    }
  }

  /** At the all-zero point only the free term remains. */
  lemma AffineAtOrigin(cs: seq<real>, xs: seq<real>)
    requires |xs| + 1 == |cs|
    requires forall i :: 0 <= i < |xs| ==> xs[i] == 0.0
    ensures Affine(cs, xs) == cs[|cs| - 1]
  {
    DotAtOrigin(cs[..|xs|], xs);
  }

  lemma DotOfOne(cs: seq<real>, xs: seq<real>)
    requires |cs| == 1 && |xs| == 1
    ensures Dot(cs, xs) == cs[0] * xs[0]
  {
    assert Dot(cs[..0], xs[..0]) == 0.0;
  }

  lemma DotOfTwo(cs: seq<real>, xs: seq<real>)
    requires |cs| == 2 && |xs| == 2
    ensures Dot(cs, xs) == cs[0] * xs[0] + cs[1] * xs[1]
  {
    DotOfOne(cs[..1], xs[..1]);
  }

  lemma DotOfThree(cs: seq<real>, xs: seq<real>)
    requires |cs| == 3 && |xs| == 3
    ensures Dot(cs, xs) == cs[0] * xs[0] + cs[1] * xs[1] + cs[2] * xs[2]
  {
    DotOfTwo(cs[..2], xs[..2]);
  }

  lemma DotOfFour(cs: seq<real>, xs: seq<real>)
    requires |cs| == 4 && |xs| == 4
    ensures Dot(cs, xs) == cs[0] * xs[0] + cs[1] * xs[1] + cs[2] * xs[2] + cs[3] * xs[3]
  {
    DotOfThree(cs[..3], xs[..3]);
  }

  /** The two-variable closed form `a·x + b·y + c`. */
  lemma AffineOfPlane(cs: seq<real>, xs: seq<real>)
    requires |cs| == 3 && |xs| == 2
    ensures Affine(cs, xs) == cs[0] * xs[0] + cs[1] * xs[1] + cs[2]
  {
    DotOfTwo(cs[..2], xs);
  }

  /** The four-variable closed form `a·x1 + b·x2 + c·x3 + d·x4 + e`. */
  lemma AffineOfSpace(cs: seq<real>, xs: seq<real>)
    requires |cs| == 5 && |xs| == 4
    ensures Affine(cs, xs) == cs[0] * xs[0] + cs[1] * xs[1] + cs[2] * xs[2] + cs[3] * xs[3] + cs[4]
  {
    DotOfFour(cs[..4], xs);
  }

  // ---------------------------------------------------------------------------
  // Canonical text

  /** The number-to-text conversion is only assumed never to produce the empty string. */
  ghost predicate NonEmptyRendering(numStr: real -> string) {
    forall r :: |numStr(r)| > 0
  }

  /** One emitted term: the sign of its coefficient and `<|c|><name>`. */
  datatype Term = Term(negative: bool, text: string)

  /** Indices below `n` whose coefficient is not within Epsilon of zero, in increasing order. */
  function Shown(cs: seq<real>, n: nat): (idx: seq<nat>)
    requires n <= |cs|
    ensures forall k :: 0 <= k < |idx| ==> idx[k] < n && Abs(cs[idx[k]]) >= Epsilon
    ensures forall j, k :: 0 <= j < k < |idx| ==> idx[j] < idx[k]
    decreases n
  {
    if n == 0 then []
    else Shown(cs, n - 1) + (if Abs(cs[n - 1]) >= Epsilon then [n - 1] else [])
  }

  /** Every coefficient below `n` that is not near zero is shown. */
  lemma {:induction false} ShownComplete(cs: seq<real>, n: nat, i: nat)
    requires n <= |cs| && i < n && Abs(cs[i]) >= Epsilon
    ensures i in Shown(cs, n)
    decreases n
  {
    if i < n - 1 {
      ShownComplete(cs, n - 1, i);
    }
  }

  function TermAt(cs: seq<real>, names: seq<string>, numStr: real -> string, i: nat): Term
    requires i < |cs| && i < |names|
  {
    Term(cs[i] < 0.0, numStr(Abs(cs[i])) + names[i])
  }

  /** The terms emitted for the first `n` variable coefficients. */
  function Terms(cs: seq<real>, names: seq<string>, numStr: real -> string, n: nat): (ts: seq<Term>)
    requires n <= |cs| && n <= |names|
    decreases n
  {
    if n == 0 then []
    else Terms(cs, names, numStr, n - 1)
         + (if Abs(cs[n - 1]) >= Epsilon then [TermAt(cs, names, numStr, n - 1)] else [])
  }

  /** The first emitted term: a minus sign only when negative. */
  function Leading(t: Term): string {
    (if t.negative then "- " else "") + t.text
  }

  /** A later term: separated by " + " or " - " according to its sign. */
  function Joined(t: Term): string {
    (if t.negative then " - " else " + ") + t.text
  }

  function Continuation(ts: seq<Term>): string
    decreases |ts|
  {
    if ts == [] then "" else Continuation(ts[..|ts| - 1]) + Joined(ts[|ts| - 1])
  }

  function JoinTerms(ts: seq<Term>): string {
    if ts == [] then "" else Leading(ts[0]) + Continuation(ts[1..])
  }

  /** The free term: appended only when not near zero, always with a separator. */
  function FreeTerm(free: real, numStr: real -> string): string {
    if Abs(free) < Epsilon then ""
    else if free >= 0.0 then " + " + numStr(free)
    else " - " + numStr(Abs(free))
  }

  /** The canonical text `"<terms> = 0"` of the equation with coefficients `cs`. */
  function Render(cs: seq<real>, names: seq<string>, numStr: real -> string): string
    requires |cs| >= 1 && |names| >= |cs| - 1
  {
    JoinTerms(Terms(cs, names, numStr, |cs| - 1)) + FreeTerm(cs[|cs| - 1], numStr) + " = 0"
  }

  lemma {:induction false} JoinTermsAppend(ts: seq<Term>, t: Term)
    ensures JoinTerms(ts + [t]) == if ts == [] then Leading(t) else JoinTerms(ts) + Joined(t)
  {
    if ts == [] {
      assert [t][1..] == [];
    } else {
      var rest := ts[1..];
      assert (ts + [t])[1..] == rest + [t];
      assert (rest + [t])[..|rest + [t]| - 1] == rest;
    }
  }

  /** The emitted terms are exactly the shown coefficients, in index order: each is
      `<|c|><name>` together with the sign of `c`. */
  lemma {:induction false} TermsAreShownCoefficients(cs: seq<real>, names: seq<string>,
                                                     numStr: real -> string, n: nat)
    requires n <= |cs| && n <= |names|
    ensures |Terms(cs, names, numStr, n)| == |Shown(cs, n)|
    ensures forall k :: 0 <= k < |Shown(cs, n)| ==>
              Terms(cs, names, numStr, n)[k] == TermAt(cs, names, numStr, Shown(cs, n)[k])
    decreases n
  {
    if n > 0 {
      TermsAreShownCoefficients(cs, names, numStr, n - 1);
    }
  }

  /** With no variable coefficient shown, the text is the free term alone (then with a
      leading " + " or " - ") followed by " = 0". */
  lemma RenderOnlyFreeTerm(cs: seq<real>, names: seq<string>, numStr: real -> string)
    requires |cs| >= 1 && |names| >= |cs| - 1
    requires forall i :: 0 <= i < |cs| - 1 ==> Abs(cs[i]) < Epsilon
    ensures Render(cs, names, numStr) == FreeTerm(cs[|cs| - 1], numStr) + " = 0"
  {
    var n := |cs| - 1;
    NoneShown(cs, n);
    TermsAreShownCoefficients(cs, names, numStr, n);
    assert Terms(cs, names, numStr, n) == [];
  }

  lemma {:induction false} NoneShown(cs: seq<real>, n: nat)
    requires n <= |cs|
    requires forall i :: 0 <= i < n ==> Abs(cs[i]) < Epsilon
    ensures Shown(cs, n) == []
    decreases n
  {
    if n > 0 {
      NoneShown(cs, n - 1);
    }
  }

  /** The first shown index is the first coefficient that is not near zero. */
  lemma {:induction false} FirstShown(cs: seq<real>, n: nat, j: nat)
    requires n <= |cs| && j < n && Abs(cs[j]) >= Epsilon
    requires forall i :: 0 <= i < j ==> Abs(cs[i]) < Epsilon
    ensures Shown(cs, n) != [] && Shown(cs, n)[0] == j
    decreases n
  {
    if n - 1 == j {
      NoneShown(cs, j);
    } else {
      FirstShown(cs, n - 1, j);
    }
  }

  lemma FirstTerm(cs: seq<real>, names: seq<string>, numStr: real -> string, n: nat, j: nat)
    requires n <= |cs| && n <= |names| && j < n && Abs(cs[j]) >= Epsilon
    requires forall i :: 0 <= i < j ==> Abs(cs[i]) < Epsilon
    ensures Terms(cs, names, numStr, n) != []
    ensures Terms(cs, names, numStr, n)[0] == TermAt(cs, names, numStr, j)
  {
    FirstShown(cs, n, j);
    TermsAreShownCoefficients(cs, names, numStr, n);
  }

  lemma JoinTermsOpens(ts: seq<Term>, suffix: string)
    requires ts != []
    ensures var lead := Leading(ts[0]);
            |lead| <= |JoinTerms(ts) + suffix| && (JoinTerms(ts) + suffix)[..|lead|] == lead
  {
    var lead := Leading(ts[0]);
    assert JoinTerms(ts) + suffix == lead + (Continuation(ts[1..]) + suffix);
  }

  /** When some variable coefficient is shown, the text opens with the first shown term,
      written without a separator and with "- " only when that coefficient is negative. */
  lemma RenderOpensWithFirstTerm(cs: seq<real>, names: seq<string>, numStr: real -> string, j: nat)
    requires |cs| >= 1 && |names| >= |cs| - 1
    requires j < |cs| - 1 && Abs(cs[j]) >= Epsilon
    requires forall i :: 0 <= i < j ==> Abs(cs[i]) < Epsilon
    ensures var lead := (if cs[j] < 0.0 then "- " else "") + numStr(Abs(cs[j])) + names[j];
            |lead| <= |Render(cs, names, numStr)| && Render(cs, names, numStr)[..|lead|] == lead
  {
    var n := |cs| - 1;
    FirstTerm(cs, names, numStr, n, j);
    var ts := Terms(cs, names, numStr, n);
    var lead := Leading(ts[0]);
    assert lead == (if cs[j] < 0.0 then "- " else "") + numStr(Abs(cs[j])) + names[j];
    var suffix := FreeTerm(cs[n], numStr) + " = 0";
    assert Render(cs, names, numStr) == JoinTerms(ts) + suffix;
    JoinTermsOpens(ts, suffix);
  }

  /** Whatever the coefficients, the text ends with " = 0". */
  lemma RenderEndsWithEqualsZero(cs: seq<real>, names: seq<string>, numStr: real -> string)
    requires |cs| >= 1 && |names| >= |cs| - 1
    ensures var r := Render(cs, names, numStr); |r| >= 4 && r[|r| - 4..] == " = 0"
  {
    var body := JoinTerms(Terms(cs, names, numStr, |cs| - 1)) + FreeTerm(cs[|cs| - 1], numStr);
    assert Render(cs, names, numStr) == body + " = 0";
  }

  /** Emitting a shown coefficient extends the text by its term. */
  lemma EmitTerm(cs: seq<real>, names: seq<string>, numStr: real -> string, i: nat,
                 before: string, after: string)
    requires i < |cs| && i < |names| && NonEmptyRendering(numStr)
    requires Abs(cs[i]) >= Epsilon
    requires before == JoinTerms(Terms(cs, names, numStr, i))
    requires |before| > 0 <==> Terms(cs, names, numStr, i) != []
    requires after == before + (if |before| > 0 then (if cs[i] >= 0.0 then " + " else " - ")
                                else if cs[i] < 0.0 then "- " else "")
                      + numStr(Abs(cs[i])) + names[i]
    ensures after == JoinTerms(Terms(cs, names, numStr, i + 1))
    ensures |after| > 0 && Terms(cs, names, numStr, i + 1) != []
  {
    var ts := Terms(cs, names, numStr, i);
    var t := TermAt(cs, names, numStr, i);
    assert Terms(cs, names, numStr, i + 1) == ts + [t];
    var sep := if |before| > 0 then (if t.negative then " - " else " + ")
               else if t.negative then "- " else "";
    assert after == before + sep + t.text;
    AppendTerm(ts, t, before, after);
    assert |numStr(Abs(cs[i]))| > 0;
  }

  /** One step of the formatting loop: appending a term's separator and text to the text
      of the terms so far gives the text of the extended list. */
  lemma AppendTerm(ts: seq<Term>, t: Term, before: string, after: string)
    requires before == JoinTerms(ts) && (|before| > 0 <==> ts != [])
    requires after == before + (if |before| > 0 then (if t.negative then " - " else " + ")
                                else if t.negative then "- " else "") + t.text
    ensures after == JoinTerms(ts + [t])
  {
    JoinTermsAppend(ts, t);
  }

  /** A hidden coefficient adds no term. */
  lemma SkipTerm(cs: seq<real>, names: seq<string>, numStr: real -> string, i: nat)
    requires i < |cs| && i < |names|
    requires Abs(cs[i]) < Epsilon
    ensures Terms(cs, names, numStr, i + 1) == Terms(cs, names, numStr, i)
  {
    assert Terms(cs, names, numStr, i + 1) == Terms(cs, names, numStr, i) + [];
  }

  // ---------------------------------------------------------------------------
  // The abstract base class

  class GeometricEquation {
    /** `[c1, …, cn, cfree]`, fixed at construction. */
    const coefficients: seq<real>

    ghost predicate Valid() {
      WellFormed(coefficients)
    }

    constructor Init(cs: seq<real>)
      requires WellFormed(cs)
      ensures coefficients == cs && Valid()
    {
      coefficients := cs;
    }

    /** The protected constructor: rejects an empty vector and one that is all near zero,
        and otherwise keeps the coefficients exactly as given. */
    static method Create(cs: seq<real>) returns (r: Result<GeometricEquation, Error>)
      ensures r.Err? <==> CheckCoefficients(cs).Some?
      ensures r.Err? ==> Some(r.error) == CheckCoefficients(cs)
      ensures r.Ok? ==> fresh(r.value) && r.value.coefficients == cs && r.value.Valid()
    {
      if |cs| == 0 {
        return Err(EmptyCoefficients);
      }
      if AllNearZero(cs) {
        return Err(AllCoefficientsZero);
      }
      var equation := new GeometricEquation.Init(cs);
      return Ok(equation);
    }

    /** The number of variables: the coefficient count without the free term. */
    function Dimension(): (d: int)
      ensures Valid() ==> d >= 0
    {
      |coefficients| - 1
    }

    /** The left-hand side at a point whose arity must be the dimension. */
    method Evaluate(coords: seq<real>) returns (r: Result<real, Error>)
      ensures |coords| != Dimension() ==> r == Err(CoordinateCount(Dimension()))
      ensures |coords| == Dimension() ==> r == Ok(Affine(coefficients, coords))
    {
      if |coords| != |coefficients| - 1 {
        return Err(CoordinateCount(|coefficients| - 1));
      }
      var free := coefficients[|coefficients| - 1];
      var sum := free;
      var i := 0;
      while i < |coords|
        invariant 0 <= i <= |coords|
        invariant sum == free + Dot(coefficients[..i], coords[..i])
      {
        assert coefficients[..i + 1][..i] == coefficients[..i];
        assert coords[..i + 1][..i] == coords[..i];
        sum := sum + coefficients[i] * coords[i];
        i := i + 1;
      }
      assert coords[..i] == coords;
      return Ok(sum);
    }

    /** The canonical text `"<terms> = 0"` for the given variable names. */
    method FormatEquation(names: seq<string>, numStr: real -> string) returns (s: string)
      requires Valid()
      requires |names| >= Dimension()
      requires NonEmptyRendering(numStr)
      ensures s == Render(coefficients, names, numStr)
    {
      var sb := "";
      var i := 0;
      while i < |coefficients| - 1
        invariant 0 <= i <= |coefficients| - 1
        invariant sb == JoinTerms(Terms(coefficients, names, numStr, i))
        invariant |sb| > 0 <==> Terms(coefficients, names, numStr, i) != []
      {
        var c := coefficients[i];
        if Abs(c) >= Epsilon {
          var sep := if |sb| > 0 then (if c >= 0.0 then " + " else " - ")
                     else if c < 0.0 then "- " else "";
          ghost var before := sb;
          sb := sb + sep + numStr(Abs(c)) + names[i];
          EmitTerm(coefficients, names, numStr, i, before, sb);
        } else {
          SkipTerm(coefficients, names, numStr, i);
        }
        i := i + 1;
      }
      ghost var body := sb;
      assert Render(coefficients, names, numStr) == body + FreeTerm(coefficients[|coefficients| - 1], numStr) + " = 0";
      var free := coefficients[|coefficients| - 1];
      if Abs(free) >= Epsilon {
        sb := sb + (if free >= 0.0 then " + " + numStr(free) else " - " + numStr(Abs(free)));
      }
      assert sb == body + FreeTerm(free, numStr);
      s := sb + " = 0";
    }
  }
}
