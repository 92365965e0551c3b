/**
 * Preparing a product for retrieval: the raw document list built from the
 * product's bullet points, reviews and details; cutting every document into
 * chunks; dropping chunks whose text was already seen; and embedding what is
 * left.
 *
 * The tokenizer-aware splitter and the embedding model are parameters.
 */
module Embedding {
  import opened Records
  import opened Strings

  const DefaultChunkSize: int := 512
  const DefaultModel := "thenlper/gte-small"

  /** The splitter's separators, tried in this order. */
  const Separators: seq<string> := ["\n#{1,6}", "```\n", "\n\\\\\\*+\n", "\n---+\n", "\n_+\n", "\n\n", "\n", " ", ""]

  /** The input: missing `about` or `reviews` lists read as empty; each detail key may
      be absent. */
  datatype ProductData = ProductData(about: seq<string>, reviews: seq<string>, details: Facts)

  /** A chunk: its text and the offset of the text in its source document. */
  datatype Chunk = Chunk(pageContent: string, startIndex: nat)

  datatype SplitterConfig = SplitterConfig(
    tokenizer: string,
    chunkSize: int,
    chunkOverlap: int,
    addStartIndex: bool,
    stripWhitespace: bool,
    separators: seq<string>)

  // ---------------------------------------------------------------------------
  // The raw documents

  /** How a present detail value is written into an f-string. */
  function Shown(f: Field): string {
    match f
    case Text(t) => t
    case _ => "None"
  }

  /** One line for a detail key, if the key is present. */
  function DetailDoc(prefix: string, f: Field): seq<string> {
    if f.Absent? then [] else [prefix + Shown(f)]
  }

  /** The detail lines, in the order name, price, rating, image. */
  function DetailDocs(f: Facts): seq<string> {
    DetailDoc("name : ", f.name) + DetailDoc("price : ", f.price) +
    DetailDoc("Rating : ", f.rating) + DetailDoc("Image link : ", f.image)
  }

  function RawDocuments(d: ProductData): seq<string> {
    d.about + d.reviews + DetailDocs(d.details)
  }

  function Present(f: Field): nat {
    if f.Absent? then 0 else 1
  }

  /** How many detail keys are present. */
  function PresentKeys(f: Facts): nat {
    Present(f.name) + Present(f.price) + Present(f.rating) + Present(f.image)
  }

  /** `build_raw_knowledge_base`. */
  method BuildRawKnowledgeBase(d: ProductData) returns (docs: seq<string>)
    ensures docs == RawDocuments(d)
  {
    docs := [];
    docs := docs + d.about;
    docs := docs + d.reviews;
    var f := d.details;
    if !f.name.Absent? {
      docs := docs + ["name : " + Shown(f.name)];
    }
    if !f.price.Absent? {
      docs := docs + ["price : " + Shown(f.price)];
    }
    if !f.rating.Absent? {
      docs := docs + ["Rating : " + Shown(f.rating)];
    }
    if !f.image.Absent? {
      docs := docs + ["Image link : " + Shown(f.image)];
    }
  }

  /** The bullet points come first, then the reviews, then one line per present detail
      key; the count is the sum of the three. */
  lemma RawDocumentsLayout(d: ProductData)
    ensures var docs := RawDocuments(d);
      var n := |d.about| + |d.reviews|;
      |docs| == n + PresentKeys(d.details) &&
      docs[..|d.about|] == d.about && docs[|d.about|..n] == d.reviews &&
      docs[n..] == DetailDocs(d.details)
  {
    var docs := RawDocuments(d);
    var n := |d.about| + |d.reviews|;
    assert docs == (d.about + d.reviews) + DetailDocs(d.details);
    assert docs[..n] == d.about + d.reviews;
    assert docs[..|d.about|] == docs[..n][..|d.about|];
    assert docs[|d.about|..n] == docs[..n][|d.about|..];
  }

  /** Every line for a key starts with the first character of that key's prefix. */
  lemma DetailDocHead(prefix: string, f: Field)
    requires prefix != []
    ensures forall x :: x in DetailDoc(prefix, f) ==> |x| > 0 && x[0] == prefix[0]
  {
  }

  /** The line for a present key is among the detail lines exactly when the key is
      present: no line for another key starts with the same character. */
  lemma DetailDocPresent(f: Facts)
    ensures ("price : " + Shown(f.price)) in DetailDocs(f) <==> !f.price.Absent?
    ensures ("Rating : " + Shown(f.rating)) in DetailDocs(f) <==> !f.rating.Absent?
  {
    var n, p := DetailDoc("name : ", f.name), DetailDoc("price : ", f.price);
    var r, i := DetailDoc("Rating : ", f.rating), DetailDoc("Image link : ", f.image);
    assert DetailDocs(f) == n + p + r + i;
    DetailDocHead("name : ", f.name);
    DetailDocHead("price : ", f.price);
    DetailDocHead("Rating : ", f.rating);
    DetailDocHead("Image link : ", f.image);
    var pl, rl := "price : " + Shown(f.price), "Rating : " + Shown(f.rating);
    assert pl[0] == 'p' && rl[0] == 'R';
    if !f.price.Absent? {
      assert p == [pl];
    }
    if !f.rating.Absent? {
      assert r == [rl];
    }
  }

  /** A detail line appears exactly when its key is present, with its fixed prefix,
      and the lines keep the order name, price, rating, image. */
  lemma DetailDocsPrefixes(f: Facts)
    ensures var lines := DetailDocs(f);
      |lines| == PresentKeys(f) &&
      (f.name.Text? ==> lines[0] == "name : " + f.name.text) &&
      (f.name.Null? ==> lines[0] == "name : None") &&
      (!f.image.Absent? ==> lines[|lines| - 1] == "Image link : " + Shown(f.image)) &&
      (("price : " + Shown(f.price)) in lines <==> !f.price.Absent?) &&
      (("Rating : " + Shown(f.rating)) in lines <==> !f.rating.Absent?)
  {
    DetailDocPresent(f);
  }

  // ---------------------------------------------------------------------------
  // Splitting

  /** `int(chunk_size / 10)`: division, then truncation toward zero. */
  function Overlap(chunkSize: int): (r: int)
    ensures 0 <= chunkSize ==> 0 <= r && 10 * r <= chunkSize < 10 * r + 10
    ensures chunkSize < 0 ==> r <= 0 && -10 * r <= -chunkSize < -10 * r + 10
  {
    if chunkSize >= 0 then chunkSize / 10 else -((-chunkSize) / 10)
  }

  function ConfigFor(chunkSize: int, tokenizer: string): SplitterConfig {
    SplitterConfig(tokenizer, chunkSize, Overlap(chunkSize), true, true, Separators)
  }

  /** With the defaults, chunks of 512 tokens overlap by 51. */
  lemma DefaultConfig()
    ensures ConfigFor(DefaultChunkSize, DefaultModel).chunkOverlap == 51
    ensures ConfigFor(DefaultChunkSize, DefaultModel).tokenizer == "thenlper/gte-small"
  {
  }

  /** The chunks of every document, document by document. */
  function AllChunks(raw: seq<string>, split: string -> seq<Chunk>): (r: seq<Chunk>)
    ensures forall k, j :: 0 <= k < |raw| && 0 <= j < |split(raw[k])| ==> split(raw[k])[j] in r
  {
    if raw == [] then [] else AllChunks(raw[..|raw| - 1], split) + split(raw[|raw| - 1])
  }

  /** Chunking distributes over concatenation of document lists, so the chunks keep
      the documents' order. */
  lemma {:induction false} AllChunksAppend(a: seq<string>, b: seq<string>, split: string -> seq<Chunk>)
    ensures AllChunks(a + b, split) == AllChunks(a, split) + AllChunks(b, split)
    decreases |b|
  {
    if b == [] {
      assert a + b == a;
    } else {
      var b' := b[..|b| - 1];
      assert (a + b)[..|a + b| - 1] == a + b';
      assert (a + b)[|a + b| - 1] == b[|b| - 1];
      AllChunksAppend(a, b', split);
      assert AllChunks(a + b, split) == AllChunks(a + b', split) + split(b[|b| - 1]);
      assert AllChunks(b, split) == AllChunks(b', split) + split(b[|b| - 1]);
    }
  }

  // ---------------------------------------------------------------------------
  // Deduplication by text

  function TextSet(c: seq<Chunk>): set<string> {
    set k | 0 <= k < |c| :: c[k].pageContent
  }

  /** The deduplication loop: keep a chunk only if no kept chunk has its text. */
  function Dedup(c: seq<Chunk>): (r: seq<Chunk>)
    ensures |r| <= |c|
    ensures forall k :: 0 <= k < |r| ==> r[k] in c
  {
    if c == [] then []
    else
      var kept := Dedup(c[..|c| - 1]);
      if c[|c| - 1].pageContent in TextSet(kept) then kept else kept + [c[|c| - 1]]
  }

  lemma TextSetSnoc(c: seq<Chunk>, x: Chunk)
    ensures TextSet(c + [x]) == TextSet(c) + {x.pageContent}
  {
    var d := c + [x];
    forall t | t in TextSet(d) ensures t in TextSet(c) + {x.pageContent} {
      var k :| 0 <= k < |d| && d[k].pageContent == t;
      if k < |c| { assert d[k] == c[k]; }
    }
    forall t | t in TextSet(c) ensures t in TextSet(d) {
      var k :| 0 <= k < |c| && c[k].pageContent == t;
      assert d[k] == c[k];
    }
    assert d[|c|] == x;
  }

  /** The kept chunks carry exactly the texts of all chunks. */
  lemma {:induction false} DedupTexts(c: seq<Chunk>)
    ensures TextSet(Dedup(c)) == TextSet(c)
  {
    if c != [] {
      var init := c[..|c| - 1];
      var x := c[|c| - 1];
      DedupTexts(init);
      assert c == init + [x];
      TextSetSnoc(init, x);
      TextSetSnoc(Dedup(init), x);
    }
  }

  predicate DistinctTexts(c: seq<Chunk>) {
    forall a, b :: 0 <= a < b < |c| ==> c[a].pageContent != c[b].pageContent
  }

  /** No two kept chunks have the same text. */
  lemma {:induction false} DedupDistinct(c: seq<Chunk>)
    ensures DistinctTexts(Dedup(c))
  {
    if c != [] {
      var kept := Dedup(c[..|c| - 1]);
      var x := c[|c| - 1];
      DedupDistinct(c[..|c| - 1]);
      if x.pageContent !in TextSet(kept) {
        var r := kept + [x];
        forall a, b | 0 <= a < b < |r| ensures r[a].pageContent != r[b].pageContent {
          if b == |kept| {
            assert r[a] == kept[a];
          } else {
            assert r[a] == kept[a] && r[b] == kept[b];
          }
        }
      }
    }
  }

  /** The chunk at `k` is the first with its text. */
  predicate FirstOfText(c: seq<Chunk>, k: nat)
    requires k < |c|
  {
    forall j :: 0 <= j < k ==> c[j].pageContent != c[k].pageContent
  }

  /** The chunks among the first `n` that are the first with their text, in order. */
  function Firsts(c: seq<Chunk>, n: nat): seq<Chunk>
    requires n <= |c|
  {
    if n == 0 then [] else Firsts(c, n - 1) + (if FirstOfText(c, n - 1) then [c[n - 1]] else [])
  }

  /** Deduplication keeps exactly the first chunk of each text, in the original order. */
  lemma {:induction false} DedupKeepsFirsts(c: seq<Chunk>, n: nat)
    requires n <= |c|
    ensures Dedup(c[..n]) == Firsts(c, n)
  {
    if n > 0 {
      var p := c[..n];
      DedupKeepsFirsts(c, n - 1);
      assert p[..n - 1] == c[..n - 1];
      DedupTexts(c[..n - 1]);
      var x := c[n - 1];
      if FirstOfText(c, n - 1) {
        assert forall j :: 0 <= j < n - 1 ==> c[..n - 1][j] == c[j];
      } else {
        var j :| 0 <= j < n - 1 && c[j].pageContent == x.pageContent;
        assert c[..n - 1][j] == c[j];
      }
    }
  }

  /** `split_documents`: chunk every document, then keep the first chunk of each text. */
  method SplitDocuments(chunkSize: int, raw: seq<string>, tokenizer: string,
                        splitterFor: SplitterConfig -> (string -> seq<Chunk>)) returns (unique: seq<Chunk>)
    ensures unique == Dedup(AllChunks(raw, splitterFor(ConfigFor(chunkSize, tokenizer))))
  {
    var split := splitterFor(ConfigFor(chunkSize, tokenizer));
    var all: seq<Chunk> := [];
    var i := 0;
    while i < |raw|
      invariant 0 <= i <= |raw|
      invariant all == AllChunks(raw[..i], split)
    {
      assert raw[..i + 1][..i] == raw[..i];
      all := all + split(raw[i]);
      i := i + 1;
    }
    assert raw[..|raw|] == raw;
    var seen: set<string> := {};
    unique := [];
    var k := 0;
    while k < |all|
      invariant 0 <= k <= |all|
      invariant unique == Dedup(all[..k])
      invariant seen == TextSet(unique)
    {
      var chunk := all[k];
      assert all[..k + 1][..k] == all[..k];
      if chunk.pageContent !in seen {
        TextSetSnoc(unique, chunk);
        seen := seen + {chunk.pageContent};
        unique := unique + [chunk];
      }
      k := k + 1;
    }
    assert all[..|all|] == all;
  }

  // ---------------------------------------------------------------------------
  // Embedding

  function TextsOf(c: seq<Chunk>): (r: seq<string>)
    ensures |r| == |c| && forall k :: 0 <= k < |c| ==> r[k] == c[k].pageContent
  {
    seq(|c|, k requires 0 <= k < |c| => c[k].pageContent)
  }

  /** `process_data_for_embedding`: `embed(model, texts)` is the embedding model, here
      run with the tokenizer's name as the model name. */
  method ProcessDataForEmbedding(d: ProductData, tokenizer: string, chunkSize: int,
                                 splitterFor: SplitterConfig -> (string -> seq<Chunk>),
                                 embed: (string, seq<string>) -> seq<seq<real>>)
    returns (docs: seq<Chunk>, embeddings: seq<seq<real>>)
    ensures docs == Dedup(AllChunks(RawDocuments(d), splitterFor(ConfigFor(chunkSize, tokenizer))))
    ensures DistinctTexts(docs)
    ensures TextSet(docs) == TextSet(AllChunks(RawDocuments(d), splitterFor(ConfigFor(chunkSize, tokenizer))))
    ensures embeddings == embed(tokenizer, TextsOf(docs))
  {
    var raw := BuildRawKnowledgeBase(d);
    docs := SplitDocuments(chunkSize, raw, tokenizer, splitterFor);
    DedupDistinct(AllChunks(raw, splitterFor(ConfigFor(chunkSize, tokenizer))));
    DedupTexts(AllChunks(raw, splitterFor(ConfigFor(chunkSize, tokenizer))));
    embeddings := embed(tokenizer, TextsOf(docs));
  }
}
