/**
 * Summarising reviews with a text-generation model: the reviews become a
 * bulleted block inside a fixed instruction prompt, and the model's output is
 * cut after its last "Summary:" marker, stripped, and rid of double quotes.
 *
 * The text-generation call is a parameter.
 */
module Summarize {
  import opened Records
  import opened Strings

  const SummaryModel := "HuggingFaceH4/zephyr-7b-beta"
  const MaxReviews: nat := 20
  const MaxReviewChars: nat := 500
  const Marker := "Summary:"

  const EmptyInput := "Please provide a non-empty list of reviews"
  const GenerationFailed := "Failed to generate summary. Please try again later."

  datatype GenerationRequest = GenerationRequest(
    model: string,
    prompt: string,
    maxNewTokens: nat,
    temperature: real,
    topP: real,
    doSample: bool,
    stop: seq<string>)

  datatype Summary = Summary(summaryText: string, wordCount: nat, reviewCount: nat)

  datatype Outcome = Summarized(summary: Summary) | SummaryError(error: string, status: nat)

  // ---------------------------------------------------------------------------
  // The prompt

  /** One bullet per review among the first twenty, each cut to 500 characters. */
  function Bullets(reviews: seq<string>): (r: seq<string>)
    ensures |r| == |Take(reviews, MaxReviews)|
    ensures forall k :: 0 <= k < |r| ==> r[k] == "- " + Take(reviews[k], MaxReviewChars)
  {
    var used := Take(reviews, MaxReviews);
    seq(|used|, k requires 0 <= k < |used| => "- " + Take(used[k], MaxReviewChars))
  }

  function ReviewsBlock(reviews: seq<string>): string {
    Join("\n", Bullets(reviews))
  }

  const PromptHead := "<s>[INST] \n" +
    "        Analyze these product reviews and create a concise summary that covers all points such that:\n" +
    "        1. Highlights the mentioned positive features\n" +
    "        2. Notes common criticisms or negativities or cons if present\n" +
    "        3. Provides overall sentiment assessment\n" +
    "        4. Uses neutral third-person perspective\n" +
    "        \n" +
    "        Reviews:\n" +
    "        "
  const PromptTail := "\n        \n        Summary: [/INST]"

  /** The one text-generation request: the fixed instruction around the reviews block,
      and the fixed sampling parameters. */
  function RequestFor(reviews: seq<string>): (r: GenerationRequest)
    ensures r.model == SummaryModel && r.prompt == PromptHead + Join("\n", Bullets(reviews)) + PromptTail
    ensures r.maxNewTokens == 250 && r.temperature == 0.5 && r.topP == 0.9 && r.doSample && r.stop == ["</s>"]
  {
    GenerationRequest(SummaryModel, PromptHead + ReviewsBlock(reviews) + PromptTail, 250, 0.5, 0.9, true, ["</s>"])
  }

  /** Reviews after the twentieth, and characters after the 500th of a review, never
      reach the model. */
  lemma PromptUsesFirstTwenty(a: seq<string>, b: seq<string>)
    requires |Take(a, MaxReviews)| == |Take(b, MaxReviews)|
    requires forall k :: 0 <= k < |Take(a, MaxReviews)| ==> Take(a[k], MaxReviewChars) == Take(b[k], MaxReviewChars)
    ensures RequestFor(a) == RequestFor(b)
  {
    assert Bullets(a) == Bullets(b);
  }

  // ---------------------------------------------------------------------------
  // Post-processing

  /** `output.split("Summary:")[-1].strip()`. No marker: the whole output, stripped. A
      marker: the stripped suffix of the output that follows a marker and contains none. */
  function AfterMarker(output: string): (r: string)
    ensures !Contains(output, Marker) ==> r == Strip(output)
    ensures Contains(output, Marker) ==> exists n: nat :: (OccursAt(output, Marker, n) &&
      !Contains(output[n + |Marker|..], Marker) && r == Strip(output[n + |Marker|..]))
  {
    var parts := Split(output, Marker);
    var last := parts[|parts| - 1];
    SplitLast(output, Marker);
    if !Contains(output, Marker) then
      SplitWithoutSeparator(output, Marker);
      Strip(last)
    else
      var i := Find(output, Marker, 0);
      assert parts == [output[..i]] + Split(output[i + |Marker|..], Marker);
      var n := |output| - |last| - |Marker|;
      assert output[n + |Marker|..] == last;
      assert OccursAt(output, Marker, n);
      Strip(last)
  }

  /** The summary text: what follows the last marker, stripped, with `"` turned into `'`. */
  function CleanSummary(output: string): (r: string)
    ensures '"' !in r
    ensures |r| == |AfterMarker(output)|
    ensures forall k :: 0 <= k < |r| ==>
      r[k] == (if AfterMarker(output)[k] == '"' then '\'' else AfterMarker(output)[k])
  {
    var r := ReplaceChar(AfterMarker(output), '"', '\'');
    assert forall k :: 0 <= k < |r| ==> r[k] != '"';
    r
  }

  // ---------------------------------------------------------------------------
  // The whole operation

  /** `summarize_reviews`: `generate` answers the text the model produced, or raises. */
  function SummarizeReviews(reviews: seq<string>, generate: GenerationRequest -> Call<string>): (r: Outcome)
    ensures reviews == [] <==> r == SummaryError(EmptyInput, 400)
    ensures r.SummaryError? && reviews != [] ==> r == SummaryError(GenerationFailed, 500)
    ensures reviews != [] ==>
      (generate(RequestFor(reviews)).Raised? <==> r == SummaryError(GenerationFailed, 500))
    ensures r.Summarized? ==> r.summary.reviewCount == |reviews| && '"' !in r.summary.summaryText
  {
    if reviews == [] then SummaryError(EmptyInput, 400)
    else match generate(RequestFor(reviews))
      case Raised(_) => SummaryError(GenerationFailed, 500)
      case Returned(output) =>
        var summary := CleanSummary(output);
        Summarized(Summary(summary, |Words(summary)|, |reviews|))
  }

  /** A successful summary is the cleaned text after the model's last marker; its word
      count counts the whitespace-separated tokens, which together hold every
      non-whitespace character of the summary. */
  lemma SummaryOfOutput(reviews: seq<string>, generate: GenerationRequest -> Call<string>)
    requires reviews != [] && generate(RequestFor(reviews)).Returned?
    ensures var r := SummarizeReviews(reviews, generate);
      var text := r.summary.summaryText;
      r.Summarized? && text == CleanSummary(generate(RequestFor(reviews)).value) &&
      r.summary.wordCount == |Words(text)| && Concat(Words(text)) == Squeeze(text)
  {
    WordsSqueeze(CleanSummary(generate(RequestFor(reviews)).value));
  }
}
