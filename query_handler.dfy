/**
 * Answering a question about a stored product: find the product among the
 * user's recent searches, score its stored chunks against the embedded
 * question, keep the best ones, and ask the chat model with a fixed prompt.
 *
 * The question embedder, the similarity measure and the chat completion are
 * parameters; scores are integers standing for the floating-point cosine
 * similarities.
 */
module QueryHandler {
  import opened Records
  import opened Strings

  /** Number of chunks retrieved per question. */
  const TopK: nat := 7
  const MaxTokens: nat := 500
  const Temperature: real := 0.3
  const ChatModel := "mistralai/Mistral-7B-Instruct-v0.3"

  const SearchFailed := HttpError(500, "Failed to perform similarity search")
  const GenerationFailed := HttpError(500, "Failed to generate response")
  const NoDocuments := HttpError(404, "Product not found or has no documents")

  datatype Message = Message(role: string, content: string)

  datatype ChatRequest = ChatRequest(model: string, messages: seq<Message>, maxTokens: nat, temperature: real)

  datatype Services = Services(
    embedQuery: string -> Call<seq<real>>,
    similarity: (seq<real>, seq<real>) -> int,
    complete: ChatRequest -> Call<seq<string>>)

  // ---------------------------------------------------------------------------
  // Top-k selection over scores

  predicate InRange(scores: seq<int>, idx: seq<nat>) {
    forall m :: 0 <= m < |idx| ==> idx[m] < |scores|
  }

  predicate Distinct(idx: seq<nat>) {
    forall a, b :: 0 <= a < b < |idx| ==> idx[a] != idx[b]
  }

  /** Scores never increase along `idx`. */
  predicate Descending(scores: seq<int>, idx: seq<nat>)
    requires InRange(scores, idx)
  {
    forall a, b :: 0 <= a < b < |idx| ==> scores[idx[a]] >= scores[idx[b]]
  }

  /** Insert index `i` after every index whose score is at least its own. */
  function Insert(scores: seq<int>, i: nat, sorted: seq<nat>): (r: seq<nat>)
    requires i < |scores| && InRange(scores, sorted)
    ensures |r| == |sorted| + 1 && InRange(scores, r)
    ensures forall x :: x in r <==> x in sorted || x == i
  {
    if sorted == [] then [i]
    else if scores[sorted[0]] >= scores[i] then [sorted[0]] + Insert(scores, i, sorted[1..])
    else [i] + sorted
  }

  lemma {:induction false} InsertKeepsOrder(scores: seq<int>, i: nat, sorted: seq<nat>)
    requires i < |scores| && InRange(scores, sorted)
    requires Descending(scores, sorted)
    requires Distinct(sorted) && i !in sorted
    ensures Descending(scores, Insert(scores, i, sorted))
    ensures Distinct(Insert(scores, i, sorted))
  {
    if sorted == [] {
      assert Insert(scores, i, sorted) == [i];
    } else if scores[sorted[0]] >= scores[i] {
      var rt := Insert(scores, i, sorted[1..]);
      InsertKeepsOrder(scores, i, sorted[1..]);
      HeadAboveInsert(scores, i, sorted);
      ConsKeepsOrder(scores, sorted[0], rt);
      assert Insert(scores, i, sorted) == [sorted[0]] + rt;
    } else {
      forall b | 0 <= b < |sorted|
        ensures scores[i] >= scores[sorted[b]] && i != sorted[b]
      {
        if b > 0 {
          assert scores[sorted[0]] >= scores[sorted[b]];
        }
      }
      ConsKeepsOrder(scores, i, sorted);
      assert Insert(scores, i, sorted) == [i] + sorted;
    }
  }

  /** An index above every index of a ranking, and not in it, can head it. */
  lemma ConsKeepsOrder(scores: seq<int>, h: nat, rest: seq<nat>)
    requires h < |scores| && InRange(scores, rest)
    requires Descending(scores, rest) && Distinct(rest)
    requires forall b :: 0 <= b < |rest| ==> scores[h] >= scores[rest[b]] && h != rest[b]
    ensures InRange(scores, [h] + rest)
    ensures Descending(scores, [h] + rest) && Distinct([h] + rest)
  {
    var r := [h] + rest;
    forall a, b | 0 <= a < b < |r|
      ensures r[a] < |scores| && r[b] < |scores| && scores[r[a]] >= scores[r[b]] && r[a] != r[b]
    {
      assert r[b] == rest[b - 1];
      if a > 0 {
        assert r[a] == rest[a - 1];
      }
    }
  }

  /** The head of the ranking stays above everything inserted after it. */
  lemma HeadAboveInsert(scores: seq<int>, i: nat, sorted: seq<nat>)
    requires i < |scores| && InRange(scores, sorted) && sorted != []
    requires Descending(scores, sorted) && Distinct(sorted) && i !in sorted
    requires scores[sorted[0]] >= scores[i]
    ensures forall b :: 0 <= b < |Insert(scores, i, sorted[1..])| ==>
      scores[sorted[0]] >= scores[Insert(scores, i, sorted[1..])[b]] && sorted[0] != Insert(scores, i, sorted[1..])[b]
  {
    var tail := sorted[1..];
    var rt := Insert(scores, i, tail);
    forall b | 0 <= b < |rt|
      ensures scores[sorted[0]] >= scores[rt[b]] && sorted[0] != rt[b]
    {
      assert rt[b] in rt;
      if rt[b] != i {
        assert rt[b] in tail;
        var c :| 0 <= c < |tail| && tail[c] == rt[b];
        assert sorted[c + 1] == rt[b];
      }
    }
  }

  /** The indices `0 .. n-1` ordered by non-increasing score. */
  function SortIndices(scores: seq<int>, n: nat): (r: seq<nat>)
    requires n <= |scores|
    ensures |r| == n && InRange(scores, r)
    ensures forall x: nat :: x in r <==> x < n
  {
    if n == 0 then []
    else
      var prev := SortIndices(scores, n - 1);
      var r := Insert(scores, n - 1, prev);
      assert forall x :: x in r <==> x in prev || x == n - 1;
      r
  }

  lemma {:induction false} SortIndicesOrdered(scores: seq<int>, n: nat)
    requires n <= |scores|
    ensures Descending(scores, SortIndices(scores, n)) && Distinct(SortIndices(scores, n))
  {
    if n > 0 {
      SortIndicesOrdered(scores, n - 1);
      InsertKeepsOrder(scores, n - 1, SortIndices(scores, n - 1));
    }
  }

  function Min(a: nat, b: nat): nat {
    if a < b then a else b
  }

  /** The indices of the `k` highest scores (all of them when there are fewer), best first. */
  function TopKIndices(scores: seq<int>, k: nat): seq<nat> {
    SortIndices(scores, |scores|)[..Min(k, |scores|)]
  }

  /** The selection returns min(k, n) distinct indices in non-increasing score order,
      and no index left out scores higher than one kept. */
  lemma TopKIndicesCorrect(scores: seq<int>, k: nat)
    ensures var r := TopKIndices(scores, k);
      |r| == Min(k, |scores|) && InRange(scores, r) && Distinct(r) && Descending(scores, r) &&
      forall j, m :: 0 <= j < |scores| && j !in r && 0 <= m < |r| ==> scores[j] <= scores[r[m]]
  {
    var s := SortIndices(scores, |scores|);
    SortIndicesOrdered(scores, |scores|);
    var r := s[..Min(k, |scores|)];
    forall j, m | 0 <= j < |scores| && j !in r && 0 <= m < |r|
      ensures scores[j] <= scores[r[m]]
    {
      assert j in s;
      var p :| 0 <= p < |s| && s[p] == j;
      assert p >= |r| by {
        assert forall q :: 0 <= q < |r| ==> s[q] == r[q] && r[q] != j;
      }
      assert r[m] == s[m];
    }
  }

  // ---------------------------------------------------------------------------
  // Retrieval

  function Scores(q: seq<real>, docs: seq<InfoDoc>, similarity: (seq<real>, seq<real>) -> int): (r: seq<int>)
    ensures |r| == |docs| && forall i :: 0 <= i < |docs| ==> r[i] == similarity(q, docs[i].vectors)
  {
    seq(|docs|, i requires 0 <= i < |docs| => similarity(q, docs[i].vectors))
  }

  function TextsAt(docs: seq<InfoDoc>, idx: seq<nat>): (r: seq<string>)
    requires forall m :: 0 <= m < |idx| ==> idx[m] < |docs|
    ensures |r| == |idx| && forall m :: 0 <= m < |idx| ==> r[m] == docs[idx[m]].docText
  {
    seq(|idx|, m requires 0 <= m < |idx| => docs[idx[m]].docText)
  }

  /** `similarity_search`, as the code evidently intends: the texts of the best
      min(k, n) chunks, best first. */
  function SimilaritySearch(query: string, docs: seq<InfoDoc>, k: nat, svc: Services): (r: Result<seq<string>>)
    ensures r.Ok? <==> svc.embedQuery(query).Returned?
    ensures r.Err? ==> r.error == SearchFailed
    ensures r.Ok? ==> |r.value| == Min(k, |docs|)
    ensures r.Ok? ==> forall m :: 0 <= m < |r.value| ==> exists j :: 0 <= j < |docs| && r.value[m] == docs[j].docText
  {
    match svc.embedQuery(query)
    case Raised(_) => Err(SearchFailed)
    case Returned(q) =>
      var scores := Scores(q, docs, svc.similarity);
      var idx := TopKIndices(scores, k);
      TopKIndicesCorrect(scores, k);
      Ok(TextsAt(docs, idx))
  }

  /** `similarity_search` as written: `argpartition(similarities, -k)` raises unless
      1 <= k <= n, except that k = 0 selects every chunk (`[-0:]` is the whole array). */
  function SimilaritySearchAsWritten(query: string, docs: seq<InfoDoc>, k: nat, svc: Services): (r: Result<seq<string>>)
    ensures r.Ok? <==> svc.embedQuery(query).Returned? && 1 <= |docs| && k <= |docs|
    ensures r.Err? ==> r.error == SearchFailed
    ensures r.Ok? ==> |r.value| == (if k == 0 then |docs| else k)
  {
    match svc.embedQuery(query)
    case Raised(_) => Err(SearchFailed)
    case Returned(q) =>
      var n := |docs|;
      if k > n || n == 0 then Err(SearchFailed)
      else
        var scores := Scores(q, docs, svc.similarity);
        var idx := TopKIndices(scores, if k == 0 then n else k);
        TopKIndicesCorrect(scores, if k == 0 then n else k);
        Ok(TextsAt(docs, idx))
  }

  /** What the retrieval returns: min(k, n) texts, each the text of a distinct chunk,
      best score first, and no chunk left out scores above one returned. */
  lemma SimilaritySearchRanks(query: string, docs: seq<InfoDoc>, k: nat, svc: Services)
    requires svc.embedQuery(query).Returned?
    ensures var texts := SimilaritySearch(query, docs, k, svc);
      var scores := Scores(svc.embedQuery(query).value, docs, svc.similarity);
      var idx := TopKIndices(scores, k);
      texts == Ok(TextsAt(docs, idx)) &&
      |texts.value| == Min(k, |docs|) && Distinct(idx) && InRange(scores, idx) && Descending(scores, idx) &&
      (forall j, m :: 0 <= j < |docs| && j !in idx && 0 <= m < |idx| ==> scores[j] <= scores[idx[m]])
  {
    TopKIndicesCorrect(Scores(svc.embedQuery(query).value, docs, svc.similarity), k);
  }

  /** The code as written fails whenever there are fewer than seven chunks, e.g. two. */
  lemma AsWrittenFailsOnFewDocs(query: string, docs: seq<InfoDoc>, svc: Services)
    requires 1 <= |docs| < TopK && svc.embedQuery(query).Returned?
    ensures SimilaritySearchAsWritten(query, docs, TopK, svc) == Err(SearchFailed)
    ensures SimilaritySearch(query, docs, TopK, svc).Ok?
    ensures |SimilaritySearch(query, docs, TopK, svc).value| == |docs|
  {
  }

  /** With at least k >= 1 chunks the corrected and the written search agree. */
  lemma AsWrittenAgreesWithEnoughDocs(query: string, docs: seq<InfoDoc>, k: nat, svc: Services)
    requires 1 <= k <= |docs|
    ensures SimilaritySearchAsWritten(query, docs, k, svc) == SimilaritySearch(query, docs, k, svc)
  {
  }

  // ---------------------------------------------------------------------------
  // Prompt assembly and generation

  /** The retrieved texts, each preceded by a line break. */
  function Lines(docs: seq<string>): string {
    if docs == [] then "" else "\n" + docs[0] + Lines(docs[1..])
  }

  /** `"\n".join(["Extracted Documents:", *docs, f"\nQuestion: {query}"])`: the header,
      then one line per retrieved text in retrieval order, then a blank line and the
      question. */
  function Context(query: string, docs: seq<string>): (r: string)
    ensures r == "Extracted Documents:" + Lines(docs) + "\n\nQuestion: " + query
  {
    JoinFramed("\n", "Extracted Documents:", docs, "\nQuestion: " + query);
    LinesJoined(docs);
    Join("\n", ["Extracted Documents:"] + docs + ["\nQuestion: " + query])
  }

  lemma {:induction false} JoinFramed(sep: string, head: string, mid: seq<string>, tail: string)
    ensures Join(sep, [head] + mid + [tail]) == head + JoinedWith(sep, mid) + sep + tail
    decreases |mid|
  {
    if mid == [] {
      assert [head] + mid + [tail] == [head, tail];
      assert [head, tail][1..] == [tail];
    } else {
      JoinFramed(sep, mid[0], mid[1..], tail);
      assert ([head] + mid + [tail])[1..] == [mid[0]] + mid[1..] + [tail];
    }
  }

  function JoinedWith(sep: string, parts: seq<string>): string {
    if parts == [] then "" else sep + parts[0] + JoinedWith(sep, parts[1..])
  }

  lemma {:induction false} LinesJoined(docs: seq<string>)
    ensures JoinedWith("\n", docs) == Lines(docs)
  {
    if docs != [] { LinesJoined(docs[1..]); }
  }

  const PromptHead := "Using the information from reviews and product features below, \n" +
    "        provide a concise answer to the question. If the information isn't sufficient, \n" +
    "        respond politely without mentioning lack of context.\n\n" +
    "        Context:\n        "
  const PromptTail := "\n        "

  /** The one chat request `generate_response` makes. */
  function ChatFor(query: string, docs: seq<string>): (r: ChatRequest)
    ensures r.model == ChatModel && r.maxTokens == 500 && r.temperature == 0.3
    ensures |r.messages| == 1 && r.messages[0].role == "user"
    ensures r.messages[0].content == PromptHead + "Extracted Documents:" + Lines(docs) + "\n\nQuestion: " + query + PromptTail
  {
    ChatRequest(ChatModel, [Message("user", PromptHead + Context(query, docs) + PromptTail)], MaxTokens, Temperature)
  }

  /** `generate_response`: the first choice's content, verbatim. */
  function GenerateResponse(query: string, docs: seq<string>, svc: Services): (r: Result<string>)
    ensures r.Ok? <==> svc.complete(ChatFor(query, docs)).Returned? && svc.complete(ChatFor(query, docs)).value != []
    ensures r.Ok? ==> r.value == svc.complete(ChatFor(query, docs)).value[0]
    ensures r.Err? ==> r.error == GenerationFailed
  {
    match svc.complete(ChatFor(query, docs))
    case Raised(_) => Err(GenerationFailed)
    case Returned(choices) => if choices == [] then Err(GenerationFailed) else Ok(choices[0])
  }

  // ---------------------------------------------------------------------------
  // The handler

  const QueryFailed := HttpError(500, "Failed to process query")

  /** The chunks of the product a question is about. `lookup` is the read of the user's
      `recentSearches` from the store: `Returned(None)` when there is no such user,
      `Raised` when the read fails. The first entry with the product id is used. */
  function ProductDocs<Sent, Summ>(pid: string, lookup: Call<Option<seq<RecentSearch<Sent, Summ>>>>): (r: Result<seq<InfoDoc>>)
    ensures lookup.Raised? ==> r == Err(QueryFailed)
    ensures lookup == Returned(None) ==> r == Err(HttpError(404, "User not found"))
    ensures lookup.Returned? && lookup.value.Some? ==>
      var recent := lookup.value.value;
      var i := FirstMatch(recent, pid);
      (r.Ok? <==> i.Some? && recent[i.value].infoDocs != []) &&
      (r.Ok? ==> r.value == recent[i.value].infoDocs) &&
      (r.Err? ==> r.error == NoDocuments)
  {
    match lookup
    case Raised(_) => Err(QueryFailed)
    case Returned(None) => Err(HttpError(404, "User not found"))
    case Returned(Some(recent)) =>
      match FirstMatch(recent, pid)
      case None => Err(NoDocuments)
      case Some(i) => if recent[i].infoDocs == [] then Err(NoDocuments) else Ok(recent[i].infoDocs)
  }

  /** `handle_query` as written: the product's chunks go through the search as written,
      which fails for fewer than seven chunks. */
  function HandleQuery<Sent, Summ>(query: string, pid: string, lookup: Call<Option<seq<RecentSearch<Sent, Summ>>>>, svc: Services): (r: Result<string>)
    ensures r.Err? ==> r.error in {HttpError(404, "User not found"), NoDocuments, QueryFailed, SearchFailed, GenerationFailed}
    ensures ProductDocs(pid, lookup).Err? ==> r == Err(ProductDocs(pid, lookup).error)
  {
    match ProductDocs(pid, lookup)
    case Err(e) => Err(e)
    case Ok(docs) =>
      match SimilaritySearchAsWritten(query, docs, TopK, svc)
      case Err(e) => Err(e)
      case Ok(texts) => GenerateResponse(query, texts, svc)
  }

  /** `handle_query` with the corrected search: answers from the best min(7, n) chunks. */
  function HandleQueryCorrected<Sent, Summ>(query: string, pid: string, lookup: Call<Option<seq<RecentSearch<Sent, Summ>>>>, svc: Services): (r: Result<string>)
    ensures r.Err? ==> r.error in {HttpError(404, "User not found"), NoDocuments, QueryFailed, SearchFailed, GenerationFailed}
    ensures ProductDocs(pid, lookup).Err? ==> r == Err(ProductDocs(pid, lookup).error)
  {
    match ProductDocs(pid, lookup)
    case Err(e) => Err(e)
    case Ok(docs) =>
      match SimilaritySearch(query, docs, TopK, svc)
      case Err(e) => Err(e)
      case Ok(texts) => GenerateResponse(query, texts, svc)
  }

  /** The failure conditions checked before any service is called. */
  lemma HandleQueryNotFound<Sent, Summ>(query: string, pid: string, recent: seq<RecentSearch<Sent, Summ>>, svc: Services)
    ensures HandleQuery<Sent, Summ>(query, pid, Returned(None), svc) == Err(HttpError(404, "User not found"))
    ensures (forall j :: 0 <= j < |recent| ==> recent[j].productId != pid) ==>
      HandleQuery(query, pid, Returned(Some(recent)), svc) == Err(NoDocuments)
    ensures (FirstMatch(recent, pid).Some? && recent[FirstMatch(recent, pid).value].infoDocs == []) ==>
      HandleQuery(query, pid, Returned(Some(recent)), svc) == Err(NoDocuments)
  {
  }

  /** With at least seven chunks, the answer is generated from the top seven chunks of the
      FIRST entry with the requested product id. */
  lemma HandleQueryUsesFirstMatch<Sent, Summ>(query: string, pid: string, recent: seq<RecentSearch<Sent, Summ>>, i: nat, svc: Services)
    requires i < |recent| && recent[i].productId == pid
    requires forall j :: 0 <= j < i ==> recent[j].productId != pid
    requires |recent[i].infoDocs| >= TopK
    ensures svc.embedQuery(query).Raised? ==> HandleQuery(query, pid, Returned(Some(recent)), svc) == Err(SearchFailed)
    ensures svc.embedQuery(query).Returned? ==>
      var texts := SimilaritySearch(query, recent[i].infoDocs, TopK, svc).value;
      |texts| == TopK &&
      HandleQuery(query, pid, Returned(Some(recent)), svc) == GenerateResponse(query, texts, svc)
  {
    var docs := recent[i].infoDocs;
    assert FirstMatch(recent, pid) == Some(i);
    assert ProductDocs(pid, Returned(Some(recent))) == Ok(docs);
    AsWrittenAgreesWithEnoughDocs(query, docs, TopK, svc);
  }

  /** With one to six chunks the handler as written fails with the search's 500, while the
      corrected handler answers from all of them, best first. */
  lemma HandleQueryFailsOnFewDocs<Sent, Summ>(query: string, pid: string, recent: seq<RecentSearch<Sent, Summ>>, i: nat, svc: Services)
    requires i < |recent| && recent[i].productId == pid
    requires forall j :: 0 <= j < i ==> recent[j].productId != pid
    requires 1 <= |recent[i].infoDocs| < TopK
    ensures HandleQuery(query, pid, Returned(Some(recent)), svc) == Err(SearchFailed)
    ensures svc.embedQuery(query).Returned? ==>
      var texts := SimilaritySearch(query, recent[i].infoDocs, TopK, svc).value;
      |texts| == |recent[i].infoDocs| &&
      HandleQueryCorrected(query, pid, Returned(Some(recent)), svc) == GenerateResponse(query, texts, svc)
  {
    var docs := recent[i].infoDocs;
    assert FirstMatch(recent, pid) == Some(i);
    assert ProductDocs(pid, Returned(Some(recent))) == Ok(docs);
  }
}
