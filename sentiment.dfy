/**
 * Sentiment of a batch of reviews: each review, cut to its first thousand
 * characters, goes to a text classifier; the top prediction's label picks one
 * of three counters and its score is collected; the mean of the scores closes
 * the summary. Any failure abandons the whole batch.
 *
 * The classifier is a parameter returning its predictions best first.
 */
module Sentiment {
  import opened Records
  import opened Strings

  const MaxReviewChars: nat := 1000
  const SentimentModel := "cardiffnlp/twitter-roberta-base-sentiment"

  /** `list[0]` on an empty list. */
  const EmptyIndexError := "list index out of range"

  datatype Prediction = Prediction(labelName: string, score: real)

  datatype Bucket = Positive | Negative | Neutral

  datatype Summary = Summary(positive: nat, negative: nat, neutral: nat, scores: seq<real>, averageScore: real)

  datatype Outcome = Analyzed(summary: Summary) | Failed(error: string)

  /** The counter a label increments: "negative" anywhere in the lowercased label wins,
      then "neutral"; anything else counts as positive. */
  function BucketOf(labelName: string): (b: Bucket)
    ensures b == Negative <==> Contains(Lower(labelName), "negative")
    ensures b == Neutral <==> !Contains(Lower(labelName), "negative") && Contains(Lower(labelName), "neutral")
  {
    var l := Lower(labelName);
    if Contains(l, "negative") then Negative
    else if Contains(l, "neutral") then Neutral
    else Positive
  }

  /** The top prediction for one review. */
  function Top(review: string, classify: string -> Call<seq<Prediction>>): Call<Prediction> {
    match classify(Take(review, MaxReviewChars))
    case Raised(m) => Raised(m)
    case Returned(ps) => if ps == [] then Raised(EmptyIndexError) else Returned(ps[0])
  }

  /** The top predictions of the first `n` reviews, or the failure of the first of
      them that fails. */
  function Tops(reviews: seq<string>, n: nat, classify: string -> Call<seq<Prediction>>): Call<seq<Prediction>>
    requires n <= |reviews|
  {
    if n == 0 then Returned([])
    else match Tops(reviews, n - 1, classify)
      case Raised(m) => Raised(m)
      case Returned(ps) =>
        match Top(reviews[n - 1], classify)
        case Raised(m) => Raised(m)
        case Returned(p) => Returned(ps + [p])
  }

  function Count(ps: seq<Prediction>, b: Bucket): nat {
    if ps == [] then 0
    else Count(ps[..|ps| - 1], b) + (if BucketOf(ps[|ps| - 1].labelName) == b then 1 else 0)
  }

  function ScoresOf(ps: seq<Prediction>): (r: seq<real>)
    ensures |r| == |ps| && forall k :: 0 <= k < |ps| ==> r[k] == ps[k].score
  {
    seq(|ps|, k requires 0 <= k < |ps| => ps[k].score)
  }

  function Sum(xs: seq<real>): real {
    if xs == [] then 0.0 else Sum(xs[..|xs| - 1]) + xs[|xs| - 1]
  }

  function Average(xs: seq<real>): real {
    if xs == [] then 0.0 else Sum(xs) / (|xs| as real)
  }

  /** The specification of `analyze_sentiment`. */
  function AnalysisOf(reviews: seq<string>, classify: string -> Call<seq<Prediction>>): (r: Outcome)
    ensures r.Failed? <==> Tops(reviews, |reviews|, classify).Raised?
    ensures r.Analyzed? ==>
      r.summary.positive + r.summary.negative + r.summary.neutral == |r.summary.scores| == |reviews|
  {
    if Tops(reviews, |reviews|, classify).Returned? then
      TopsInOrder(reviews, |reviews|, classify);
      CountsAddUp(Tops(reviews, |reviews|, classify).value);
      AnalysisFor(reviews, classify)
    else AnalysisFor(reviews, classify)
  }

  function AnalysisFor(reviews: seq<string>, classify: string -> Call<seq<Prediction>>): Outcome {
    match Tops(reviews, |reviews|, classify)
    case Raised(m) => Failed(m)
    case Returned(ps) =>
      var scores := ScoresOf(ps);
      Analyzed(Summary(Count(ps, Positive), Count(ps, Negative), Count(ps, Neutral), scores, Average(scores)))
  }

  /** `analyze_sentiment`: one pass over the reviews, updating the counters. */
  method AnalyzeSentiment(reviews: seq<string>, classify: string -> Call<seq<Prediction>>) returns (r: Outcome)
    ensures r == AnalysisOf(reviews, classify)
  {
    var positive, negative, neutral := 0, 0, 0;
    var scores: seq<real> := [];
    ghost var tops: seq<Prediction> := [];
    var i := 0;
    while i < |reviews|
      invariant 0 <= i <= |reviews|
      invariant Tops(reviews, i, classify) == Returned(tops)
      invariant positive == Count(tops, Positive) && negative == Count(tops, Negative) && neutral == Count(tops, Neutral)
      invariant scores == ScoresOf(tops)
    {
      var truncated := Take(reviews[i], MaxReviewChars);
      var response := classify(truncated);
      if response.Raised? {
        r := Failed(response.message);
        FailureIsFinal(reviews, i, classify, tops, response.message);
        return;
      }
      if response.value == [] {
        r := Failed(EmptyIndexError);
        FailureIsFinal(reviews, i, classify, tops, EmptyIndexError);
        return;
      }
      var top := response.value[0];
      TopsStep(reviews, i, classify, tops, top);
      var lowered := Lower(top.labelName);
      if Contains(lowered, "negative") {
        negative := negative + 1;
      } else if Contains(lowered, "neutral") {
        neutral := neutral + 1;
      } else {
        positive := positive + 1;
      }
      scores := scores + [top.score];
      tops := tops + [top];
      i := i + 1;
    }
    var average := if scores == [] then 0.0 else Sum(scores) / (|scores| as real);
    r := Analyzed(Summary(positive, negative, neutral, scores, average));
  }

  /** A review whose classification fails ends the batch with that failure. */
  lemma FailureIsFinal(reviews: seq<string>, i: nat, classify: string -> Call<seq<Prediction>>, tops: seq<Prediction>, m: string)
    requires i < |reviews| && Tops(reviews, i, classify) == Returned(tops)
    requires Top(reviews[i], classify) == Raised(m)
    ensures AnalysisOf(reviews, classify) == Failed(m)
  {
    assert Tops(reviews, i + 1, classify) == Raised(m);
    TopsStopAtFailure(reviews, i + 1, |reviews|, classify);
  }

  /** One more classified review extends the successful prefix, one counter and the scores. */
  lemma TopsStep(reviews: seq<string>, i: nat, classify: string -> Call<seq<Prediction>>, tops: seq<Prediction>, top: Prediction)
    requires i < |reviews| && Tops(reviews, i, classify) == Returned(tops)
    requires Top(reviews[i], classify) == Returned(top)
    ensures Tops(reviews, i + 1, classify) == Returned(tops + [top])
    ensures forall b :: Count(tops + [top], b) == Count(tops, b) + (if BucketOf(top.labelName) == b then 1 else 0)
    ensures ScoresOf(tops + [top]) == ScoresOf(tops) + [top.score]
  {
    assert (tops + [top])[..|tops|] == tops;
  }

  /** Once the first `n` reviews fail, every longer prefix fails with the same message. */
  lemma {:induction false} TopsStopAtFailure(reviews: seq<string>, n: nat, m: nat, classify: string -> Call<seq<Prediction>>)
    requires n <= m <= |reviews| && Tops(reviews, n, classify).Raised?
    ensures Tops(reviews, m, classify) == Tops(reviews, n, classify)
    decreases m
  {
    if n < m {
      TopsStopAtFailure(reviews, n, m - 1, classify);
    }
  }

  /** Every review increments exactly one counter. */
  lemma {:induction false} CountsAddUp(ps: seq<Prediction>)
    ensures Count(ps, Positive) + Count(ps, Negative) + Count(ps, Neutral) == |ps|
  {
    if ps != [] {
      CountsAddUp(ps[..|ps| - 1]);
    }
  }

  /** A successful prefix has one top prediction per review, in input order. */
  lemma {:induction false} TopsInOrder(reviews: seq<string>, n: nat, classify: string -> Call<seq<Prediction>>)
    requires n <= |reviews| && Tops(reviews, n, classify).Returned?
    ensures var ps := Tops(reviews, n, classify).value;
      |ps| == n && forall k :: 0 <= k < n ==> Top(reviews[k], classify) == Returned(ps[k])
  {
    if n > 0 {
      TopsInOrder(reviews, n - 1, classify);
      var ps := Tops(reviews, n, classify).value;
      var pinit := Tops(reviews, n - 1, classify).value;
      assert ps == pinit + [ps[n - 1]];
    }
  }

  /** A failed prefix names its first failing review: every earlier review was
      classified, and that one raised or got no prediction. */
  lemma {:induction false} FirstFailure(reviews: seq<string>, n: nat, classify: string -> Call<seq<Prediction>>)
    requires n <= |reviews| && Tops(reviews, n, classify).Raised?
    ensures exists i :: (0 <= i < n && Top(reviews[i], classify) == Raised(Tops(reviews, n, classify).message) &&
      Tops(reviews, i, classify).Returned?)
  {
    if Tops(reviews, n - 1, classify).Raised? {
      FirstFailure(reviews, n - 1, classify);
    }
  }

  /** On success the three counters add up to the number of reviews and of scores, the
      scores are the top scores in input order, and the average is their mean (0.0 for
      no reviews). On failure nothing but the message is reported. */
  lemma AnalysisSummary(reviews: seq<string>, classify: string -> Call<seq<Prediction>>)
    ensures var a := AnalysisOf(reviews, classify);
      a.Analyzed? ==>
        var s := a.summary;
        s.positive + s.negative + s.neutral == |s.scores| == |reviews| &&
        (forall k :: 0 <= k < |reviews| ==> (Top(reviews[k], classify).Returned? &&
          s.scores[k] == Top(reviews[k], classify).value.score)) &&
        s.averageScore == (if reviews == [] then 0.0 else Sum(s.scores) / (|reviews| as real))
    ensures AnalysisOf(reviews, classify).Failed? <==> Tops(reviews, |reviews|, classify).Raised?
  {
    if Tops(reviews, |reviews|, classify).Returned? {
      var ps := Tops(reviews, |reviews|, classify).value;
      TopsInOrder(reviews, |reviews|, classify);
      CountsAddUp(ps);
    }
  }

  /** No reviews give zero counts, no scores and a mean of 0.0. */
  lemma EmptyBatch(classify: string -> Call<seq<Prediction>>)
    ensures AnalysisOf([], classify) == Analyzed(Summary(0, 0, 0, [], 0.0))
  {
  }
}
