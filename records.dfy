/**
 * The values that travel between the server's components: optional values,
 * the outcome of a call into code outside the model, HTTP errors, the scraped
 * product facts and the recent-search record each user keeps.
 */
module Records {

  datatype Option<T> = None | Some(value: T) {
    function GetOr(default: T): T {
      match this
      case Some(v) => v
      case None => default
    }
  }

  /** What a call into a foreign collaborator (scraper, model endpoint) gives back:
      a value, or an exception carrying the text `str(e)` would show. */
  datatype Call<T> = Returned(value: T) | Raised(message: string)

  /** An `HTTPException`: its status code and its `detail`. */
  datatype HttpError = HttpError(status: nat, detail: string)

  datatype Result<T> = Ok(value: T) | Err(error: HttpError)

  /** One entry of a loosely typed dictionary: the key may be absent, present
      with `None`, or present with a text. */
  datatype Field = Absent | Null | Text(text: string) {
    /** `d.get(key, "")` read as a text. */
    function TextOr(): string {
      if Text? then text else ""
    }
  }

  /** The product facts a scraper reports. */
  datatype Facts = Facts(name: Field, image: Field, price: Field, rating: Field)

  const NoFacts := Facts(Absent, Absent, Absent, Absent)

  /** `product_details`: the scraped facts with `about` set to the scraped bullet list. */
  datatype ProductDetails = ProductDetails(facts: Facts, about: seq<string>)

  /** One stored embedded chunk, read through the keys "doc_text" and "vectors". */
  datatype InfoDoc = InfoDoc(docText: string, vectors: seq<real>)

  /** One entry of a user's `recentSearches` list. The summary and sentiment
      payloads are whatever the analysis stages produced. */
  datatype RecentSearch<Sent, Summ> = RecentSearch(
    productId: string,
    url: string,
    productDetails: ProductDetails,
    reviewSummary: Summ,
    sentimentSummary: Sent,
    infoDocs: seq<InfoDoc>)

  /** The index of the first entry whose `product_id` equals `pid`: the scan
      `search`, `get_product` and `handle_query` all perform. */
  function FirstMatch<Sent, Summ>(searches: seq<RecentSearch<Sent, Summ>>, pid: string): (r: Option<nat>)
    ensures r.Some? ==> r.value < |searches| && searches[r.value].productId == pid
    ensures r.Some? ==> forall j :: 0 <= j < r.value ==> searches[j].productId != pid
    ensures r.None? ==> forall j :: 0 <= j < |searches| ==> searches[j].productId != pid
  {
    if searches == [] then None
    else if searches[0].productId == pid then Some(0)
    else match FirstMatch(searches[1..], pid)
      case None => None
      case Some(i) => Some(i + 1)
  }
}
