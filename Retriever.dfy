/** Retrieval over the banking knowledge base: shaping the vector-search
    hits into scored records, ranking them, greedily packing the best ones
    into a context string under a length budget, and seeding or extending
    the store.  The vector search itself is a parameter (its hits for a query
    and a result count); the store is represented by the records (id,
    document, metadata) it holds. */
module Retriever {
  import opened Text
  import opened Seqs
  import DocumentChunks

  /** A metadata dictionary of the store (string keys and values). */
  type Dict = map<string, string>

  /** The hits of one search: parallel lists of documents, their metadata and
      their distances (any of them may be shorter than the others). */
  datatype SearchResult = SearchResult(documents: seq<string>, metadatas: seq<Dict>, distances: seq<real>)

  datatype Retrieved = Retrieved(content: string, metadata: Dict, relevance: real)

  const DefaultResults: int := 3
  const ContextResults: int := 5
  const DefaultMaxTokens: int := 1000
  const PieceSeparator: string := "\n---\n"
  const UnknownSource: string := "未知"
  const SourceLabel: string := "来源："
  const ContentLabel: string := "\n内容："

  function MinNat(a: nat, b: nat): nat {
    if a <= b then a else b
  }

  // ---------------------------------------------------------------------------
  // Shaping the search hits

  /** `docs` holds one record per (document, metadata) pair of `results`, in
      search order, scored `1 - distance`, or `1` when the distance is missing. */
  predicate RetrievedFrom(docs: seq<Retrieved>, results: SearchResult) {
    && |docs| == MinNat(|results.documents|, |results.metadatas|)
    && forall i :: 0 <= i < |docs| ==>
         && docs[i].content == results.documents[i]
         && docs[i].metadata == results.metadatas[i]
         && docs[i].relevance == (if i < |results.distances| then 1.0 - results.distances[i] else 1.0)
  }

  method Retrieve(results: SearchResult) returns (docs: seq<Retrieved>)
    ensures RetrievedFrom(docs, results)
  {
    var n := MinNat(|results.documents|, |results.metadatas|);
    docs := [];
    var i := 0;
    while i < n
      invariant 0 <= i <= n
      invariant RetrievedFrom(docs, SearchResult(results.documents[..i], results.metadatas[..i], results.distances))
    {
      var distance := if i < |results.distances| then results.distances[i] else 0.0;
      docs := docs + [Retrieved(results.documents[i], results.metadatas[i], 1.0 - distance)];
      i := i + 1;
    }
  }

  // ---------------------------------------------------------------------------
  // Ranking

  function RelevanceOf(d: Retrieved): real {
    d.relevance
  }

  /** The hits ordered by non-increasing relevance, hits of equal relevance
      keeping their search order (Python's stable `sort(key=relevance,
      reverse=True)`). */
  function SortByRelevance(docs: seq<Retrieved>): (r: seq<Retrieved>)
    ensures forall i, j :: 0 <= i < j < |r| ==> r[i].relevance >= r[j].relevance
    ensures multiset(r) == multiset(docs)
    ensures StableBy(r, docs, RelevanceOf)
  {
    SortDescStableBy(docs, RelevanceOf);
    SortDesc(docs, RelevanceOf)
  }

  // ---------------------------------------------------------------------------
  // Packing the context

  function SourceOf(metadata: Dict): string {
    if "source" in metadata then metadata["source"] else UnknownSource
  }

  /** The text one record contributes to the context. */
  function Piece(d: Retrieved): (r: string)
    ensures |r| > 0
  {
    SourceLabel + SourceOf(d.metadata) + ContentLabel + d.content + "\n"
  }

  function TotalLength(parts: seq<string>): nat {
    if parts == [] then 0 else TotalLength(parts[..|parts| - 1]) + |parts[|parts| - 1]|
  }

  /** `parts` is what the greedy packer selects from `docs`: the pieces of a
      prefix of `docs`, whose summed length stays below `maxTokens`, stopped
      at the first piece that would reach it. */
  predicate GreedyPrefix(parts: seq<string>, docs: seq<Retrieved>, maxTokens: int) {
    && |parts| <= |docs|
    && (forall i :: 0 <= i < |parts| ==> parts[i] == Piece(docs[i]))
    && (parts != [] ==> TotalLength(parts) < maxTokens)
    && (|parts| < |docs| ==> TotalLength(parts) + |Piece(docs[|parts|])| >= maxTokens)
  }

  method PackContext(docs: seq<Retrieved>, maxTokens: int) returns (parts: seq<string>)
    ensures GreedyPrefix(parts, docs, maxTokens)
  {
    parts := [];
    var total := 0;
    var i := 0;
    while i < |docs|
      invariant i == |parts| <= |docs|
      invariant forall k :: 0 <= k < i ==> parts[k] == Piece(docs[k])
      invariant total == TotalLength(parts)
      invariant parts != [] ==> total < maxTokens
      decreases |docs| - i
    {
      var piece := Piece(docs[i]);
      if total + |piece| < maxTokens {
        assert (parts + [piece])[..|parts|] == parts;
        assert TotalLength(parts + [piece]) == total + |piece|;
        parts := parts + [piece];
        total := total + |piece|;
        i := i + 1;
      } else {
        break;
      }
    }
  }

  lemma {:induction false} TotalLengthPrefix(parts: seq<string>, m: nat, n: nat)
    requires m <= n <= |parts|
    ensures TotalLength(parts[..m]) <= TotalLength(parts[..n])
    decreases n - m
  {
    if m < n {
      TotalLengthPrefix(parts, m, n - 1);
      assert parts[..n][..n - 1] == parts[..n - 1];
    }
  }

  /** A greedy selection cannot be a proper prefix of another: the piece
      after the shorter one fits inside the longer one's budget. */
  lemma GreedyPrefixNotShorter(docs: seq<Retrieved>, maxTokens: int, a: seq<string>, b: seq<string>)
    requires GreedyPrefix(a, docs, maxTokens) && GreedyPrefix(b, docs, maxTokens)
    ensures |a| >= |b|
  {
    if |a| < |b| {
      var n := |a|;
      assert b[..n] == a;
      assert b[..n + 1][..n] == a;
      assert TotalLength(b[..n + 1]) == TotalLength(a) + |Piece(docs[n])|;
      TotalLengthPrefix(b, n + 1, |b|);
      WholePrefix(b);
    }
  }

  /** There is only one greedy selection: two selections that both satisfy
      the packing rule are the same. */
  lemma GreedyPrefixUnique(docs: seq<Retrieved>, maxTokens: int, p: seq<string>, q: seq<string>)
    requires GreedyPrefix(p, docs, maxTokens) && GreedyPrefix(q, docs, maxTokens)
    ensures p == q
  {
    GreedyPrefixNotShorter(docs, maxTokens, p, q);
    GreedyPrefixNotShorter(docs, maxTokens, q, p);
  }

  // ---------------------------------------------------------------------------
  // The context for a query

  /** Requests five hits for `query`, ranks them and joins the greedily packed
      pieces with "\n---\n"; no piece selected gives the empty string. */
  method GetRelevantContext(search: (string, int) -> SearchResult, query: string, maxTokens: int)
    returns (context: string, ghost ranked: seq<Retrieved>, ghost parts: seq<string>)
    ensures exists retrieved :: RetrievedFrom(retrieved, search(query, ContextResults))
                                && ranked == SortByRelevance(retrieved)
    ensures SortedDesc(ranked, RelevanceOf)
    ensures GreedyPrefix(parts, ranked, maxTokens)
    ensures context == Join(parts, PieceSeparator)
    ensures context == [] <==> parts == []
  {
    var retrieved := Retrieve(search(query, ContextResults));
    var sorted := SortByRelevance(retrieved);
    var selected := PackContext(sorted, maxTokens);
    context := Join(selected, PieceSeparator);
    ranked, parts := sorted, selected;
    if selected != [] {
      JoinEnds(selected, PieceSeparator);
    }
  }

  // ---------------------------------------------------------------------------
  // The store

  /** One record of the collection: its id, the document and its metadata. */
  datatype Record = Record(id: string, document: string, metadata: Dict)

  predicate HasId(rs: seq<Record>, id: string) {
    exists i :: 0 <= i < |rs| && rs[i].id == id
  }

  /** No two records share an id. */
  predicate DistinctIds(rs: seq<Record>) {
    forall i, j :: 0 <= i < j < |rs| ==> rs[i].id != rs[j].id
  }

  /** The records of `batch` whose id `stored` does not hold yet, in batch
      order: the collection adds no second record under an id it holds. */
  function Fresh(stored: seq<Record>, batch: seq<Record>): (r: seq<Record>)
    ensures forall k :: 0 <= k < |r| ==> !HasId(stored, r[k].id)
    ensures forall k :: 0 <= k < |batch| && !HasId(stored, batch[k].id) ==> batch[k] in r
    ensures forall x :: x in r ==> x in batch
  {
    Filter(batch, (rec: Record) => !HasId(stored, rec.id))
  }

  /** Keeping some records of a list with distinct ids keeps them distinct. */
  lemma {:induction false} FilterDistinct(s: seq<Record>, p: Record -> bool)
    requires DistinctIds(s)
    ensures DistinctIds(Filter(s, p))
    decreases |s|
  {
    if s != [] {
      FilterDistinct(s[1..], p);
      var rest := Filter(s[1..], p);
      if p(s[0]) {
        forall j | 0 <= j < |rest|
          ensures rest[j].id != s[0].id
        {
          assert rest[j] in s[1..];
        }
      }
    }
  }

  lemma FreshDistinct(stored: seq<Record>, batch: seq<Record>)
    requires DistinctIds(batch)
    ensures DistinctIds(Fresh(stored, batch))
  {
    FilterDistinct(batch, (rec: Record) => !HasId(stored, rec.id));
  }

  /** A batch whose ids are all held adds nothing. */
  lemma {:induction false} FreshAllHeld(stored: seq<Record>, batch: seq<Record>)
    requires forall k :: 0 <= k < |batch| ==> HasId(stored, batch[k].id)
    ensures Fresh(stored, batch) == []
    decreases |batch|
  {
    if batch != [] {
      FreshAllHeld(stored, batch[1..]);
    }
  }

  /** An empty collection takes the whole batch. */
  lemma {:induction false} FreshOfEmpty(batch: seq<Record>)
    ensures Fresh([], batch) == batch
    decreases |batch|
  {
    if batch != [] {
      FreshOfEmpty(batch[1..]);
      assert batch == [batch[0]] + batch[1..];
    }
  }

  /** The `banking_knowledge` collection of the persistent vector store.
      `digest` stands for the first eight hex digits of a document's MD5
      hash, from which its id is made. */
  class KnowledgeStore {
    const digest: string -> string
    var records: seq<Record>

    ghost predicate Valid()
      reads this
    {
      DistinctIds(records)
    }

    /** Opening the store reopens what an earlier run persisted: the
        collection holds the records found on disk, one per id. */
    constructor (digest: string -> string, persisted: seq<Record>)
      requires DistinctIds(persisted)
      ensures Valid() && this.digest == digest && records == persisted
    {
      this.digest := digest;
      records := persisted;
    }

    function Count(): nat
      reads this
    {
      |records|
    }

    /** The id a document is stored under, `doc_` and its digest. */
    function DocId(doc: string): string {
      "doc_" + digest(doc)
    }

    /** The records `add_documents` hands to the collection: each document
        under its id, with the given metadata or the default source. */
    function Batch(docs: seq<string>, metas: seq<Dict>): (r: seq<Record>)
      requires metas == [] || |metas| == |docs|
      ensures |r| == |docs|
      ensures forall k :: 0 <= k < |docs| ==>
                r[k] == Record(DocId(docs[k]), docs[k], if metas == [] then DefaultStoreMetadata else metas[k])
    {
      seq(|docs|, k requires 0 <= k < |docs| =>
        Record(DocId(docs[k]), docs[k], if metas == [] then DefaultStoreMetadata else metas[k]))
    }

    /** Adds documents with their metadata (the default source for each when
        no metadata list is given) and returns their ids.  A batch repeating
        an id is refused as a whole (`None`) and changes nothing; otherwise
        the documents whose id is not held yet are appended, so a document
        added twice is stored once. */
    method AddDocuments(docs: seq<string>, metas: seq<Dict>) returns (ids: Option<seq<string>>)
      requires Valid()
      requires metas == [] || |metas| == |docs|
      modifies this
      ensures Valid()
      ensures ids.None? <==> !DistinctIds(Batch(docs, metas))
      ensures ids.None? ==> records == old(records)
      ensures ids.Some? ==>
                && |ids.value| == |docs|
                && (forall k :: 0 <= k < |docs| ==> ids.value[k] == DocId(docs[k]) && HasId(records, DocId(docs[k])))
                && records == old(records) + Fresh(old(records), Batch(docs, metas))
      ensures (forall k :: 0 <= k < |docs| ==> HasId(old(records), DocId(docs[k]))) ==> records == old(records)
    {
      var batch := Batch(docs, metas);
      if !DistinctIds(batch) {
        return None;
      }
      var added := Fresh(records, batch);
      FreshDistinct(records, batch);
      forall i, j | 0 <= i < j < |records + added|
        ensures (records + added)[i].id != (records + added)[j].id
      {
        if j >= |records| && i < |records| {
          assert !HasId(records, added[j - |records|].id);
        }
      }
      if forall k :: 0 <= k < |docs| ==> HasId(records, DocId(docs[k])) {
        FreshAllHeld(records, batch);
      }
      forall k | 0 <= k < |docs|
        ensures HasId(records + added, DocId(docs[k]))
      {
        if !HasId(records, batch[k].id) {
          var j :| 0 <= j < |added| && added[j] == batch[k];
          assert (records + added)[|records| + j] == batch[k];
        } else {
          var i :| 0 <= i < |records| && records[i].id == batch[k].id;
          assert (records + added)[i] == records[i];
        }
      }
      records := records + added;
      ids := Some(seq(|docs|, k requires 0 <= k < |docs| => DocId(docs[k])));
    }
  }

  const DefaultStoreMetadata: Dict := map["source" := "banking_knowledge"]
  const CustomMetadata: Dict := map["source" := "用户添加", "type" := "custom"]

  /** The metadata stored for a custom entry: the given dictionary, or the
      "user added" default when none or an empty one is given. */
  function CustomKnowledgeMetadata(metadata: Option<Dict>): (r: Dict)
    ensures r != map[]
    ensures metadata.Some? && metadata.value != map[] ==> r == metadata.value
    ensures metadata.None? || metadata.value == map[] ==>
              "source" in r && r["source"] == "用户添加" && "type" in r && r["type"] == "custom"
  {
    if metadata.None? || metadata.value == map[] then
      assert "source" in CustomMetadata;
      CustomMetadata
    else metadata.value
  }

  /** Adds one custom entry under its content's id, with its resolved
      metadata; an entry whose id the store already holds is not added
      again. */
  method AddCustomKnowledge(store: KnowledgeStore, content: string, metadata: Option<Dict>)
    requires store.Valid()
    modifies store
    ensures store.Valid()
    ensures HasId(store.records, store.DocId(content))
    ensures HasId(old(store.records), store.DocId(content)) ==> store.records == old(store.records)
    ensures !HasId(old(store.records), store.DocId(content)) ==>
              store.records == old(store.records) + [Record(store.DocId(content), content, CustomKnowledgeMetadata(metadata))]
  {
    var ids := store.AddDocuments([content], [CustomKnowledgeMetadata(metadata)]);
    ghost var batch := store.Batch([content], [CustomKnowledgeMetadata(metadata)]);
    assert batch == [Record(store.DocId(content), content, CustomKnowledgeMetadata(metadata))];
    assert ids.Some?;
  }

  function AsDict(m: DocumentChunks.Metadata): Dict {
    map["source" := m.source, "type" := m.kind]
  }

  /** The five built-in facts used when the knowledge-base files give nothing. */
  function BasicKnowledge(): (r: seq<DocumentChunks.Chunk>)
    ensures |r| == 5
  {
    [ DocumentChunks.Chunk("活期储蓄账户利率为0.3%，随时可以存取，没有最低存款要求。",
                           DocumentChunks.Metadata("基础知识", "savings_account")),
      DocumentChunks.Chunk("定期存款利率：1年期1.5%，3年期2.5%，5年期3.0%。提前支取按活期利率计算。",
                           DocumentChunks.Metadata("基础知识", "fixed_deposit")),
      DocumentChunks.Chunk("个人住房贷款最低利率为4.2%，最长贷款期限30年，需要提供收入证明和房产抵押。",
                           DocumentChunks.Metadata("基础知识", "mortgage")),
      DocumentChunks.Chunk("货币基金是低风险投资产品，年化收益率通常在2%-3%之间，适合短期资金管理。",
                           DocumentChunks.Metadata("基础知识", "investment")),
      DocumentChunks.Chunk("当前美元兑人民币汇率为7.18，欧元兑人民币为7.80，日元兑人民币为0.048。",
                           DocumentChunks.Metadata("汇率数据", "exchange_rate")) ]
  }

  function Contents(docs: seq<DocumentChunks.Chunk>): (r: seq<string>)
    ensures |r| == |docs| && forall i :: 0 <= i < |docs| ==> r[i] == docs[i].content
  {
    seq(|docs|, i requires 0 <= i < |docs| => docs[i].content)
  }

  function Metadatas(docs: seq<DocumentChunks.Chunk>): (r: seq<Dict>)
    ensures |r| == |docs| && forall i :: 0 <= i < |docs| ==> r[i] == AsDict(docs[i].metadata)
  {
    seq(|docs|, i requires 0 <= i < |docs| => AsDict(docs[i].metadata))
  }

  /** Seeds an empty store with the loaded documents, or with the built-in
      facts when nothing was loaded; a store that holds anything, such as
      one persisted by an earlier run, is left alone, so seeding twice is the
      same as seeding once.  `false` when the collection refused the seed
      batch for a repeated id. */
  method InitializeKnowledgeBase(store: KnowledgeStore, loaded: seq<DocumentChunks.Chunk>) returns (seeded: bool)
    requires store.Valid()
    modifies store
    ensures store.Valid()
    ensures old(store.Count()) != 0 ==> store.records == old(store.records) && seeded
    ensures old(store.Count()) == 0 ==>
              var seed := if loaded == [] then BasicKnowledge() else loaded;
              var batch := store.Batch(Contents(seed), Metadatas(seed));
              && (seeded <==> DistinctIds(batch))
              && store.records == (if seeded then batch else [])
    ensures seeded ==> store.Count() > 0
  {
    seeded := true;
    if store.Count() == 0 {
      var documents := if loaded == [] then BasicKnowledge() else loaded;
      FreshOfEmpty(store.Batch(Contents(documents), Metadatas(documents)));
      var ids := store.AddDocuments(Contents(documents), Metadatas(documents));
      seeded := ids.Some?;
    }
  }
}
