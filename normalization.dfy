/** The conversion of a burst of counter replies into fractional deviations from the
    burst's own mean: first the mean of the replies, then, for every reply, its
    difference from the mean divided by the mean. The mean treats an empty reply as 0,
    but the second step converts every reply without that guard, so an empty reply
    that survives the mean still aborts the run. Python's float() is the parameter
    `float`; the scripts use Text.ParseFloat. */
module Normalization {
  import opened Basics
  import opened Text

  /** A string-to-number conversion with float()'s contract on the empty string. */
  type Conversion = string -> Option<real>

  predicate RejectsEmpty(float: Conversion) { float("") == None }

  /** The number the mean's generator yields for one reply: 0 for the empty reply, its
      conversion otherwise. */
  function MeanTerm(float: Conversion, a: string): Option<real>
  {
    if a == "" then Some(0.0) else float(a)
  }

  /** Every reply converts under the unguarded float(). */
  predicate AllNumeric(float: Conversion, x: seq<string>)
  {
    forall i :: 0 <= i < |x| ==> float(x[i]).Some?
  }

  /** The numbers the replies denote. */
  function Values(float: Conversion, x: seq<string>): (v: seq<real>)
    requires AllNumeric(float, x)
    ensures |v| == |x|
  {
    seq(|x|, i requires 0 <= i < |x| => float(x[i]).value)
  }

  /** The generator handed to statistics.mean, materialised as mean does it, in order;
      the first reply it cannot convert raises ValueError. */
  function MeanTerms(float: Conversion, x: seq<string>): (r: Result<seq<real>, Failure>)
    ensures r.Ok? <==> forall i :: 0 <= i < |x| ==> MeanTerm(float, x[i]).Some?
    ensures r.Ok? ==> |r.value| == |x| && forall i :: 0 <= i < |x| ==> r.value[i] == MeanTerm(float, x[i]).value
    ensures r.Err? ==> exists i :: 0 <= i < |x| && r.error == ValueError(x[i]) && MeanTerm(float, x[i]).None?
  {
    if |x| == 0 then Ok([])
    else match MeanTerm(float, x[0])
      case None => Err(ValueError(x[0]))
      case Some(v) =>
        match MeanTerms(float, x[1..])
        case Err(e) => Err(e)
        case Ok(vs) => Ok([v] + vs)
  }

  /** statistics.mean over the replies, an empty reply counting as 0. */
  function Mean(float: Conversion, x: seq<string>): (r: Result<real, Failure>)
    ensures r.Ok? <==> |x| > 0 && forall i :: 0 <= i < |x| ==> MeanTerm(float, x[i]).Some?
    ensures |x| == 0 ==> r == Err(StatisticsError)
    ensures r.Ok? ==> r.value * |x| as real == Sum(MeanTerms(float, x).value)
  {
    match MeanTerms(float, x)
    case Err(e) => Err(e)
    case Ok(vs) =>
      if |vs| == 0 then Err(StatisticsError)
      else
        DivMul(Sum(vs), |vs| as real);
        Ok(Sum(vs) / |vs| as real)
  }

  lemma DivMul(s: real, n: real)
    requires n != 0.0
    ensures (s / n) * n == s
  {
  }

  /** The list comprehension `[(float(a) - m) / m for a in x]`, element by element:
      float(a) is evaluated before the division, so an unconvertible reply raises
      ValueError even when m is zero. */
  function Deviations(float: Conversion, x: seq<string>, m: real): (r: Result<seq<real>, Failure>)
    ensures r.Ok? <==> AllNumeric(float, x) && (|x| == 0 || m != 0.0)
    ensures r.Ok? ==> |r.value| == |x| && forall i :: 0 <= i < |x| ==> r.value[i] == (Values(float, x)[i] - m) / m
    ensures r == Err(ZeroDivisionError) <==> |x| > 0 && m == 0.0 && float(x[0]).Some?
    ensures r.Err? && r.error.ValueError? ==> exists i :: 0 <= i < |x| && r.error.token == x[i] && float(x[i]).None?
  {
    if |x| == 0 then Ok([])
    else match float(x[0])
      case None => Err(ValueError(x[0]))
      case Some(v) =>
        if m == 0.0 then Err(ZeroDivisionError)
        else match Deviations(float, x[1..], m)
          case Err(e) => Err(e)
          case Ok(ys) =>
            assert forall i :: 1 <= i < |x| ==> x[1..][i - 1] == x[i];
            Ok([(v - m) / m] + ys)
  }

  /** The relative (ppm) series of one burst. */
  function Normalize(float: Conversion, x: seq<string>): (r: Result<seq<real>, Failure>)
    ensures r.Ok? ==> |x| > 0 && |r.value| == |x|
  {
    match Mean(float, x)
    case Err(e) => Err(e)
    case Ok(m) => Deviations(float, x, m)
  }

  /** A normalisation step of a burst, as a value. */
  type Normalizer = seq<string> -> Result<seq<real>, Failure>

  /** The normalisation of the scripts, for the conversion `float`. */
  function Normalized(float: Conversion): Normalizer
  {
    x => Normalize(float, x)
  }

  /** A normalisation step that succeeds only on a non-empty burst and then yields one
      value per reply. */
  ghost predicate KeepsLength(normalize: Normalizer)
  {
    forall x :: KeepsLengthAt(normalize, x)
  }

  /** What `KeepsLength` says of one burst `x`. */
  ghost predicate KeepsLengthAt(normalize: Normalizer, x: seq<string>)
  {
    normalize(x).Ok? ==> |x| > 0 && |normalize(x).value| == |x|
  }

  lemma NormalizedKeepsLength(float: Conversion)
    ensures KeepsLength(Normalized(float))
  {
    forall x
      ensures KeepsLengthAt(Normalized(float), x)
    {
    }
  }

  /** The mean the normalisation divides by, once every reply is known to be a number. */
  function NumericMean(float: Conversion, x: seq<string>): real
    requires |x| > 0 && AllNumeric(float, x)
  {
    Sum(Values(float, x)) / |x| as real
  }

  lemma NumericMeanTerms(float: Conversion, x: seq<string>)
    requires RejectsEmpty(float) && AllNumeric(float, x)
    ensures MeanTerms(float, x) == Ok(Values(float, x))
  {
    forall i | 0 <= i < |x|
      ensures MeanTerm(float, x[i]) == float(x[i])
    {
    }
    assert MeanTerms(float, x).value == Values(float, x);
  }

  /** When normalisation succeeds and when it fails, and what it returns: one value per
      reply, in reply order, each the reply's deviation from the burst mean divided by
      that mean. Success needs a non-empty burst, every reply a number (so no empty
      reply) and a non-zero mean. */
  lemma NormalizeSpec(float: Conversion, x: seq<string>)
    requires RejectsEmpty(float)
    ensures Normalize(float, x).Ok? <==> |x| > 0 && AllNumeric(float, x) && NumericMean(float, x) != 0.0
    ensures Normalize(float, x).Ok? ==>
      var y := Normalize(float, x).value;
      |y| == |x| && forall i :: 0 <= i < |x| ==> y[i] == (Values(float, x)[i] - NumericMean(float, x)) / NumericMean(float, x)
  {
    if AllNumeric(float, x) {
      NumericMeanTerms(float, x);
    } else if Mean(float, x).Ok? {
      var i :| 0 <= i < |x| && float(x[i]).None?;
      assert Deviations(float, x, Mean(float, x).value).Err?;
    }
  }

  /** The empty-reply policy: the mean counts an empty reply as 0, but the unguarded
      float() of the comprehension rejects it, so normalisation fails rather than
      yielding -1 for that reply. */
  lemma EmptyReplyAborts(float: Conversion, x: seq<string>, k: nat)
    requires RejectsEmpty(float) && k < |x| && x[k] == ""
    ensures Normalize(float, x).Err?
  {
    NormalizeSpec(float, x);
  }

  /** A burst whose mean is zero cannot be normalised. */
  lemma ZeroMeanAborts(float: Conversion, x: seq<string>)
    requires RejectsEmpty(float) && |x| > 0 && AllNumeric(float, x) && Sum(Values(float, x)) == 0.0
    ensures Normalize(float, x) == Err(ZeroDivisionError)
  {
    NumericMeanTerms(float, x);
    ZeroProduct(Mean(float, x).value, |x| as real);
  }

  lemma {:induction false} DeviationSum(v: seq<real>, y: seq<real>, m: real)
    requires |y| == |v|
    requires forall i :: 0 <= i < |v| ==> y[i] * m == v[i] - m
    ensures Sum(y) * m == Sum(v) - |v| as real * m
    decreases |v|
  {
    if |v| > 0 {
      DeviationSum(v[1..], y[1..], m);
      MulAddRight(y[0], Sum(y[1..]), m);
    }
  }

  lemma MulAddRight(a: real, b: real, m: real)
    ensures (a + b) * m == a * m + b * m
  {
  }

  /** The relative values of a burst sum to zero: the mean is the balance point. */
  lemma NormalizedSumIsZero(float: Conversion, x: seq<string>)
    requires RejectsEmpty(float) && Normalize(float, x).Ok?
    ensures Sum(Normalize(float, x).value) == 0.0
  {
    NormalizeSpec(float, x);
    var v, y, m := Values(float, x), Normalize(float, x).value, NumericMean(float, x);
    var count := |v| as real;
    QuotientTimesDivisor(m, Sum(v), count);
    ScaledDeviations(v, y, m);
    DeviationsBalance(v, y, m);
  }

  lemma ScaledDeviations(v: seq<real>, y: seq<real>, m: real)
    requires |y| == |v| && m != 0.0
    requires forall i :: 0 <= i < |v| ==> y[i] == (v[i] - m) / m
    ensures forall i :: 0 <= i < |v| ==> y[i] * m == v[i] - m
  {
    forall i | 0 <= i < |v|
      ensures y[i] * m == v[i] - m
    {
      QuotientTimesDivisor(y[i], v[i] - m, m);
    }
  }

  lemma DeviationsBalance(v: seq<real>, y: seq<real>, m: real)
    requires |y| == |v| && m != 0.0 && m * |v| as real == Sum(v)
    requires forall i :: 0 <= i < |v| ==> y[i] * m == v[i] - m
    ensures Sum(y) == 0.0
  {
    DeviationSum(v, y, m);
    ZeroProduct(Sum(y), m);
  }

  lemma QuotientTimesDivisor(q: real, a: real, d: real)
    requires d != 0.0 && q == a / d
    ensures q * d == a
  {
  }

  lemma ZeroProduct(a: real, m: real)
    requires m != 0.0 && a * m == 0.0
    ensures a == 0.0
  {
  }

  /** Python's float() as the scripts call it rejects the empty string. */
  lemma ParseFloatRejectsEmpty()
    ensures RejectsEmpty(ParseFloat)
  {
    BlankIsNotANumber("");
  }

  /** Two bursts whose replies convert to the same numbers normalise alike. */
  lemma NormalizeCongruent(float: Conversion, x: seq<string>, x': seq<string>)
    requires RejectsEmpty(float) && |x'| == |x|
    requires forall i :: 0 <= i < |x| ==> float(x'[i]) == float(x[i])
    ensures Normalize(float, x').Ok? <==> Normalize(float, x).Ok?
    ensures Normalize(float, x').Ok? ==> Normalize(float, x').value == Normalize(float, x).value
  {
    NormalizeSpec(float, x);
    NormalizeSpec(float, x');
    if AllNumeric(float, x) {
      assert Values(float, x') == Values(float, x);
    }
  }

  /** Normalisation does not depend on the line end the counter appends to each reply. */
  lemma NormalizeIgnoresLineEnds(x: seq<string>)
    ensures var x' := seq(|x|, i requires 0 <= i < |x| => x[i] + "\n");
      && (Normalize(ParseFloat, x').Ok? <==> Normalize(ParseFloat, x).Ok?)
      && (Normalize(ParseFloat, x').Ok? ==> Normalize(ParseFloat, x').value == Normalize(ParseFloat, x).value)
  {
    var x' := seq(|x|, i requires 0 <= i < |x| => x[i] + "\n");
    forall i | 0 <= i < |x|
      ensures ParseFloat(x'[i]) == ParseFloat(x[i])
    {
      ParseIgnoresLineEnd(x[i]);
    }
    ParseFloatRejectsEmpty();
    NormalizeCongruent(ParseFloat, x, x');
  }
}
