/**
 * The search pipeline: four stages (scrape, sentiment, summary, embed) run in
 * this order over one accumulating record; after every stage the presence of
 * an `error` entry ends the run with a 400 result.
 *
 * The collaborators (the scraper, the sentiment and summary entry points, the
 * embedder) are parameters. The sentiment and summary payloads are opaque to
 * the pipeline, hence the type parameters `Sent` and `Summ`.
 */
module SearchPipeline {
  import opened Records

  /** A key of the scraper's dictionary: missing, present with `None`, or holding a value. */
  datatype Entry<T> = Missing | NoneValue | Given(value: T)

  /** The dictionary the scraper returns next to its status code. A `reviews` or `about`
      list that is missing or `None` is read as empty. */
  datatype ScrapePayload = ScrapePayload(
    error: Field,
    reviews: Option<seq<string>>,
    productDetails: Entry<Facts>,
    about: Option<seq<string>>)

  datatype Services<Sent, Summ> = Services(
    scrape: string -> Call<(ScrapePayload, int)>,
    analyzeSentiment: seq<string> -> Call<Option<Sent>>,
    summarizeReviews: seq<string> -> Call<Option<Summ>>,
    embedDocuments: seq<string> -> Call<seq<InfoDoc>>)

  /** The accumulating `self.data` dictionary; a key not yet written is `None`. */
  datatype Data<Sent, Summ> = Data(
    url: string,
    reviews: Option<seq<string>>,
    productDetails: Option<ProductDetails>,
    sentimentDetails: Option<Sent>,
    summaryDetails: Option<Summ>,
    infoDocs: Option<seq<InfoDoc>>,
    error: Field)

  function Initial<Sent, Summ>(url: string): Data<Sent, Summ> {
    Data(url, None, None, None, None, None, Absent)
  }

  /** `self.data.get("reviews")` read as a list, empty when absent. */
  function ReviewsOf<Sent, Summ>(d: Data<Sent, Summ>): seq<string> {
    d.reviews.GetOr([])
  }

  /** The first component of `execute`'s result: the record itself, or `{"error", "url"}`,
      whose `error` is whatever the record held (a text, or `None`). */
  datatype Response<Sent, Summ> = Success(data: Data<Sent, Summ>) | Failure(error: Field, url: string)

  datatype Stage = Scrape | Sentiment | Summary | Embed

  const StageOrder: seq<Stage> := [Scrape, Sentiment, Summary, Embed]

  /** Python's message for `{**None}`, when the scraper's `product_details` is `None`. */
  const NotAMappingError := "'NoneType' object is not a mapping"

  /** `scraping_response.get("error", "Scraping failed")`. */
  function ScrapeFailure(payload: ScrapePayload): Field {
    if payload.error == Absent then Text("Scraping failed") else payload.error
  }

  /** Python's message for `"Name" + None` and its siblings. */
  const NoneConcatError := "can only concatenate str (not \"NoneType\") to str"

  function ScrapeStep<Sent, Summ>(url: string, d: Data<Sent, Summ>, svc: Services<Sent, Summ>): Data<Sent, Summ> {
    match svc.scrape(url)
    case Raised(m) => d.(error := Text("Scraping error: " + m))
    case Returned(res) =>
      var payload := res.0;
      if res.1 != 200 then d.(error := ScrapeFailure(payload))
      else if payload.productDetails == NoneValue then d.(error := Text("Scraping error: " + NotAMappingError))
      else
        var reviews := payload.reviews.GetOr([]);
        var details := ProductDetails(if payload.productDetails.Given? then payload.productDetails.value else NoFacts, payload.about.GetOr([]));
        var scraped := d.(reviews := Some(reviews), productDetails := Some(details));
        if reviews == [] then scraped.(error := Text("No reviews found for this product")) else scraped
  }

  function SentimentStep<Sent, Summ>(d: Data<Sent, Summ>, svc: Services<Sent, Summ>): Data<Sent, Summ> {
    var reviews := ReviewsOf(d);
    if reviews == [] then d.(error := Text("No reviews available for sentiment analysis"))
    else match svc.analyzeSentiment(reviews)
      case Raised(m) => d.(error := Text("Sentiment analysis error: " + m))
      case Returned(None) => d.(error := Text("Sentiment analysis failed"))
      case Returned(Some(v)) => d.(sentimentDetails := Some(v))
  }

  function SummaryStep<Sent, Summ>(d: Data<Sent, Summ>, svc: Services<Sent, Summ>): Data<Sent, Summ> {
    var reviews := ReviewsOf(d);
    if reviews == [] then d.(error := Text("No reviews available for summarization"))
    else match svc.summarizeReviews(reviews)
      case Raised(m) => d.(error := Text("Summary generation error: " + m))
      case Returned(None) => d.(error := Text("Summary generation failed"))
      case Returned(Some(v)) => d.(summaryDetails := Some(v))
  }

  /** `prefix + product_details.get(key, "")`; a key present with `None` makes the
      concatenation raise. */
  function DetailLine(prefix: string, f: Field): Option<string> {
    match f
    case Absent => Some(prefix)
    case Null => None
    case Text(t) => Some(prefix + t)
  }

  predicate AnyNull(facts: Facts) {
    facts.name == Null || facts.image == Null || facts.price == Null || facts.rating == Null
  }

  /** The list handed to the embedder, or `None` when building it raises. */
  function EmbedInput(pd: ProductDetails, reviews: seq<string>): (r: Option<seq<string>>)
    ensures r.None? <==> AnyNull(pd.facts)
  {
    var f := pd.facts;
    match (DetailLine("Name", f.name), DetailLine("Image Link", f.image),
           DetailLine("Price", f.price), DetailLine("Rating", f.rating))
    case (Some(n), Some(i), Some(p), Some(r)) => Some(pd.about + reviews + [n, i, p, r])
    case _ => None
  }

  function EmbedStep<Sent, Summ>(d: Data<Sent, Summ>, svc: Services<Sent, Summ>): Data<Sent, Summ> {
    var reviews := ReviewsOf(d);
    if d.productDetails.None? || reviews == [] then d.(error := Text("No product details available for embedding"))
    else if d.productDetails.value.about == [] then d.(error := Text("No data available for embedding"))
    else match EmbedInput(d.productDetails.value, reviews)
      case None => d.(error := Text("Embedding error: " + NoneConcatError))
      case Some(input) =>
        match svc.embedDocuments(input)
        case Raised(m) => d.(error := Text("Embedding error: " + m))
        case Returned(docs) =>
          var stored := d.(infoDocs := Some(docs));
          if docs == [] then stored.(error := Text("Embedding generation failed")) else stored
  }

  /** A whole run: what `execute` returns, the stages it ran and the record it leaves. */
  datatype Run<Sent, Summ> = Run(response: Response<Sent, Summ>, status: int, stages: seq<Stage>, final: Data<Sent, Summ>)

  function Stopped<Sent, Summ>(url: string, d: Data<Sent, Summ>, stages: seq<Stage>): Run<Sent, Summ>
    requires d.error != Absent
  {
    Run(Failure(d.error, url), 400, stages, d)
  }

  /** The specification of `execute`, from any starting record. The stages run are a
      non-empty prefix of scrape, sentiment, summary, embed; a 400 carries the error of
      the last stage run, a 200 means all four ran and no error was recorded. */
  function Outcome<Sent, Summ>(url: string, d: Data<Sent, Summ>, svc: Services<Sent, Summ>): (run: Run<Sent, Summ>)
    ensures 1 <= |run.stages| <= 4 && run.stages == StageOrder[..|run.stages|]
    ensures run.status == 200 || run.status == 400
    ensures run.status == 400 <==> run.final.error != Absent
    ensures run.status == 400 ==> run.response == Failure(run.final.error, url)
    ensures run.status == 200 ==> run.response == Success(run.final) && run.stages == StageOrder
  {
    assert StageOrder[..1] == [Scrape] && StageOrder[..2] == [Scrape, Sentiment];
    assert StageOrder[..3] == [Scrape, Sentiment, Summary] && StageOrder[..4] == StageOrder;
    var d1 := ScrapeStep(url, d, svc);
    if d1.error != Absent then Stopped(url, d1, [Scrape]) else
    var d2 := SentimentStep(d1, svc);
    if d2.error != Absent then Stopped(url, d2, [Scrape, Sentiment]) else
    var d3 := SummaryStep(d2, svc);
    if d3.error != Absent then Stopped(url, d3, [Scrape, Sentiment, Summary]) else
    var d4 := EmbedStep(d3, svc);
    if d4.error != Absent then Stopped(url, d4, StageOrder) else
    Run(Success(d4), 200, StageOrder, d4)
  }

  class Pipeline<Sent, Summ> {
    const url: string
    var data: Data<Sent, Summ>
    /** The stages run so far, in order. */
    ghost var stagesRun: seq<Stage>

    constructor (url: string)
      ensures this.url == url && data == Initial(url) && stagesRun == []
    {
      this.url := url;
      data := Initial(url);
      stagesRun := [];
    }

    /** `_error_response`: `{"error": msg, "url": self.url}` with the given status. */
    function ErrorResponse(msg: Field, status: int): (r: (Response<Sent, Summ>, int))
      ensures r.0.Failure? && r.0.error == msg && r.0.url == url && r.1 == status
    {
      (Failure(msg, url), status)
    }

    method ScrapeData(svc: Services<Sent, Summ>)
      modifies this
      ensures data == ScrapeStep(url, old(data), svc)
      ensures stagesRun == old(stagesRun) + [Scrape]
    {
      stagesRun := stagesRun + [Scrape];
      var call := svc.scrape(url);
      match call
      case Raised(m) =>
        data := data.(error := Text("Scraping error: " + m));
      case Returned(res) =>
        var payload, status := res.0, res.1;
        if status != 200 {
          data := data.(error := ScrapeFailure(payload));
          return;
        }
        if payload.productDetails == NoneValue {
          data := data.(error := Text("Scraping error: " + NotAMappingError));
          return;
        }
        data := data.(reviews := Some(payload.reviews.GetOr([])),
                      productDetails := Some(ProductDetails(if payload.productDetails.Given? then payload.productDetails.value else NoFacts, payload.about.GetOr([]))));
        if data.reviews.value == [] {
          data := data.(error := Text("No reviews found for this product"));
        }
    }

    method AnalyzeSentiment(svc: Services<Sent, Summ>)
      modifies this
      ensures data == SentimentStep(old(data), svc)
      ensures stagesRun == old(stagesRun) + [Sentiment]
    {
      stagesRun := stagesRun + [Sentiment];
      if ReviewsOf(data) == [] {
        data := data.(error := Text("No reviews available for sentiment analysis"));
        return;
      }
      var call := svc.analyzeSentiment(data.reviews.value);
      match call
      case Raised(m) =>
        data := data.(error := Text("Sentiment analysis error: " + m));
      case Returned(response) =>
        if response.None? {
          data := data.(error := Text("Sentiment analysis failed"));
          return;
        }
        data := data.(sentimentDetails := response);
    }

    method GenerateSummary(svc: Services<Sent, Summ>)
      modifies this
      ensures data == SummaryStep(old(data), svc)
      ensures stagesRun == old(stagesRun) + [Summary]
    {
      stagesRun := stagesRun + [Summary];
      if ReviewsOf(data) == [] {
        data := data.(error := Text("No reviews available for summarization"));
        return;
      }
      var call := svc.summarizeReviews(data.reviews.value);
      match call
      case Raised(m) =>
        data := data.(error := Text("Summary generation error: " + m));
      case Returned(response) =>
        if response.None? {
          data := data.(error := Text("Summary generation failed"));
          return;
        }
        data := data.(summaryDetails := response);
    }

    method EmbedDocuments(svc: Services<Sent, Summ>)
      modifies this
      ensures data == EmbedStep(old(data), svc)
      ensures stagesRun == old(stagesRun) + [Embed]
    {
      stagesRun := stagesRun + [Embed];
      if data.productDetails.None? || ReviewsOf(data) == [] {
        data := data.(error := Text("No product details available for embedding"));
        return;
      }
      var about, reviews := data.productDetails.value.about, data.reviews.value;
      if about == [] || reviews == [] {
        data := data.(error := Text("No data available for embedding"));
        return;
      }
      var facts := data.productDetails.value.facts;
      var input := about + reviews;
      var lines := [DetailLine("Name", facts.name), DetailLine("Image Link", facts.image),
                    DetailLine("Price", facts.price), DetailLine("Rating", facts.rating)];
      var k := 0;
      while k < 4
        invariant 0 <= k <= 4
        invariant forall j :: 0 <= j < k ==> lines[j].Some?
        invariant input == about + reviews + seq(k, j requires 0 <= j < k => lines[j].value)
      {
        if lines[k].None? {
          data := data.(error := Text("Embedding error: " + NoneConcatError));
          return;
        }
        input := input + [lines[k].value];
        k := k + 1;
      }
      assert input == about + reviews + [lines[0].value, lines[1].value, lines[2].value, lines[3].value];
      var call := svc.embedDocuments(input);
      match call
      case Raised(m) =>
        data := data.(error := Text("Embedding error: " + m));
      case Returned(docs) =>
        data := data.(infoDocs := Some(docs));
        if docs == [] {
          data := data.(error := Text("Embedding generation failed"));
        }
    }

    /** `execute`: the four stages in order, stopping at the first error. */
    method Execute(svc: Services<Sent, Summ>) returns (response: Response<Sent, Summ>, status: int)
      modifies this
      ensures var run := Outcome(url, old(data), svc);
        response == run.response && status == run.status && data == run.final &&
        stagesRun == old(stagesRun) + run.stages
    {
      ScrapeData(svc);
      if data.error != Absent {
        var r := ErrorResponse(data.error, 400);
        response, status := r.0, r.1;
        return;
      }
      AnalyzeSentiment(svc);
      if data.error != Absent {
        var r := ErrorResponse(data.error, 400);
        response, status := r.0, r.1;
        return;
      }
      GenerateSummary(svc);
      if data.error != Absent {
        var r := ErrorResponse(data.error, 400);
        response, status := r.0, r.1;
        return;
      }
      EmbedDocuments(svc);
      if data.error != Absent {
        var r := ErrorResponse(data.error, 400);
        response, status := r.0, r.1;
        return;
      }
      response, status := Success(data), 200;
    }
  }

  // ---------------------------------------------------------------------------
  // Properties of a run

  /** A stage runs only when every earlier stage left no error. */
  lemma StageRunsOnlyAfterSuccess<Sent, Summ>(url: string, d: Data<Sent, Summ>, svc: Services<Sent, Summ>)
    ensures var run := Outcome(url, d, svc);
      var d1 := ScrapeStep(url, d, svc);
      var d2 := SentimentStep(d1, svc);
      var d3 := SummaryStep(d2, svc);
      (|run.stages| >= 2 <==> d1.error == Absent) &&
      (|run.stages| >= 3 <==> d1.error == Absent && d2.error == Absent) &&
      (|run.stages| == 4 <==> d1.error == Absent && d2.error == Absent && d3.error == Absent)
  {
  }

  /** When the scrape stage records an error, the other collaborators are never consulted:
      any services agreeing on the scrape give the same run. */
  lemma ScrapeErrorIgnoresLaterStages<Sent, Summ>(url: string, d: Data<Sent, Summ>, svc: Services<Sent, Summ>, other: Services<Sent, Summ>)
    requires ScrapeStep(url, d, svc).error != Absent
    requires other.scrape(url) == svc.scrape(url)
    ensures Outcome(url, d, other) == Outcome(url, d, svc)
    ensures Outcome(url, d, svc).stages == [Scrape]
  {
    assert ScrapeStep(url, d, other) == ScrapeStep(url, d, svc);
  }

  /** When the sentiment stage records an error, the summarizer and the embedder are never consulted. */
  lemma SentimentErrorIgnoresLaterStages<Sent, Summ>(url: string, d: Data<Sent, Summ>, svc: Services<Sent, Summ>, other: Services<Sent, Summ>)
    requires other.scrape(url) == svc.scrape(url)
    requires forall r :: other.analyzeSentiment(r) == svc.analyzeSentiment(r)
    requires SentimentStep(ScrapeStep(url, d, svc), svc).error != Absent
    ensures Outcome(url, d, other) == Outcome(url, d, svc)
  {
    var d1 := ScrapeStep(url, d, svc);
    assert ScrapeStep(url, d, other) == d1;
    assert SentimentStep(d1, other) == SentimentStep(d1, svc);
  }

  /** A scrape status other than 200 fails the run with the scraper's `error`, or "Scraping failed". */
  lemma ScrapeStatusFailure<Sent, Summ>(url: string, d: Data<Sent, Summ>, svc: Services<Sent, Summ>, payload: ScrapePayload, status: int)
    requires svc.scrape(url) == Returned((payload, status)) && status != 200
    ensures var run := Outcome(url, d, svc);
      run.status == 400 && run.stages == [Scrape] &&
      run.response == Failure(if payload.error == Absent then Text("Scraping failed") else payload.error, url)
  {
  }

  /** A scraper answering 200 with `product_details` set to `None` makes the merge raise,
      which fails the run with the scrape stage's prefixed message. */
  lemma ScrapeDetailsNone<Sent, Summ>(url: string, d: Data<Sent, Summ>, svc: Services<Sent, Summ>, payload: ScrapePayload)
    requires svc.scrape(url) == Returned((payload, 200)) && payload.productDetails == NoneValue
    ensures var run := Outcome(url, d, svc);
      run.status == 400 && run.stages == [Scrape] &&
      run.response == Failure(Text("Scraping error: " + NotAMappingError), url)
  {
    assert ScrapeStep(url, d, svc) == d.(error := Text("Scraping error: " + NotAMappingError));
  }

  /** An exception in a stage becomes that stage's prefixed message and a 400. */
  lemma ScrapeExceptionFailure<Sent, Summ>(url: string, d: Data<Sent, Summ>, svc: Services<Sent, Summ>, m: string)
    requires svc.scrape(url) == Raised(m)
    ensures Outcome(url, d, svc).response == Failure(Text("Scraping error: " + m), url)
    ensures Outcome(url, d, svc).status == 400
  {
  }

  /** A successful scrape stores the reviews and the facts merged with `about`; with no
      reviews the run stops after the scrape. */
  lemma ScrapeSuccess<Sent, Summ>(url: string, svc: Services<Sent, Summ>, payload: ScrapePayload)
    requires svc.scrape(url) == Returned((payload, 200)) && payload.productDetails != NoneValue
    ensures var d1 := ScrapeStep(url, Initial<Sent, Summ>(url), svc);
      d1.reviews == Some(payload.reviews.GetOr([])) &&
      d1.productDetails == Some(ProductDetails(if payload.productDetails.Given? then payload.productDetails.value else NoFacts, payload.about.GetOr([]))) &&
      (d1.error != Absent <==> payload.reviews.GetOr([]) == [])
    ensures payload.reviews.GetOr([]) == [] ==>
      Outcome(url, Initial<Sent, Summ>(url), svc).response == Failure(Text("No reviews found for this product"), url)
  {
  }

  /** Only a `None` from the sentiment entry point fails the stage; any other value is stored as it is. */
  lemma SentimentResultStored<Sent, Summ>(d: Data<Sent, Summ>, svc: Services<Sent, Summ>)
    requires ReviewsOf(d) != []
    ensures var d2 := SentimentStep(d, svc);
      match svc.analyzeSentiment(ReviewsOf(d))
      case Returned(Some(v)) => d2 == d.(sentimentDetails := Some(v))
      case Returned(None) => d2 == d.(error := Text("Sentiment analysis failed"))
      case Raised(m) => d2 == d.(error := Text("Sentiment analysis error: " + m))
  {
  }

  /** Only a `None` from the summary entry point fails the stage; any other value is stored as it is. */
  lemma SummaryResultStored<Sent, Summ>(d: Data<Sent, Summ>, svc: Services<Sent, Summ>)
    requires ReviewsOf(d) != []
    ensures var d3 := SummaryStep(d, svc);
      match svc.summarizeReviews(ReviewsOf(d))
      case Returned(Some(v)) => d3 == d.(summaryDetails := Some(v))
      case Returned(None) => d3 == d.(error := Text("Summary generation failed"))
      case Raised(m) => d3 == d.(error := Text("Summary generation error: " + m))
  {
  }

  /** The embedder receives the `about` bullets, then the reviews, then the name, image
      link, price and rating lines, in that order. */
  lemma EmbedInputLayout(pd: ProductDetails, reviews: seq<string>)
    requires !AnyNull(pd.facts)
    ensures var input := EmbedInput(pd, reviews).value;
      var a, n := |pd.about|, |reviews|;
      |input| == a + n + 4 &&
      input[..a] == pd.about && input[a..a + n] == reviews &&
      input[a + n] == "Name" + pd.facts.name.TextOr() &&
      input[a + n + 1] == "Image Link" + pd.facts.image.TextOr() &&
      input[a + n + 2] == "Price" + pd.facts.price.TextOr() &&
      input[a + n + 3] == "Rating" + pd.facts.rating.TextOr()
  {
    var input := EmbedInput(pd, reviews).value;
    var a, n := |pd.about|, |reviews|;
    assert input[..a] == pd.about;
    assert input[a..a + n] == reviews;
  }

  /** A run that reaches the embed stage with no `about` bullets fails with
      "No data available for embedding"; an empty embedder result fails with
      "Embedding generation failed". */
  lemma EmbedFailures<Sent, Summ>(d: Data<Sent, Summ>, svc: Services<Sent, Summ>)
    requires d.productDetails.Some? && ReviewsOf(d) != []
    ensures d.productDetails.value.about == [] ==>
      EmbedStep(d, svc).error == Text("No data available for embedding")
    ensures (d.productDetails.value.about != [] && !AnyNull(d.productDetails.value.facts) &&
      svc.embedDocuments(EmbedInput(d.productDetails.value, ReviewsOf(d)).value) == Returned([])) ==>
      EmbedStep(d, svc).error == Text("Embedding generation failed")
  {
  }

  /** A full success from a fresh record: status 200, the original `url`, and every
      stage's output stored. */
  lemma SuccessCarriesEverything<Sent, Summ>(url: string, svc: Services<Sent, Summ>)
    requires Outcome(url, Initial<Sent, Summ>(url), svc).status == 200
    ensures var run := Outcome(url, Initial<Sent, Summ>(url), svc);
      var f := run.final;
      run.response == Success(f) && f.url == url && f.error == Absent &&
      f.reviews.Some? && f.reviews.value != [] &&
      f.productDetails.Some? && f.productDetails.value.about != [] &&
      f.sentimentDetails.Some? && f.summaryDetails.Some? &&
      f.infoDocs.Some? && f.infoDocs.value != []
  {
  }
}
