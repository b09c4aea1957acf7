/** The jargon database of the paper analyser (`JargonDatabase`): six fixed
    term entries become one document each, the vector index over them is
    built only when the embedding model loaded, and a search formats the
    documents the index returns.  The embedding model, the index build and
    the similarity search are inputs; the index is modelled by the
    documents it holds. */
module Jargon {
  import opened Basics
  import opened Text

  const NOT_READY := "벡터 데이터베이스가 준비되지 않았습니다."
  const NOT_FOUND := "관련된 용어 정의를 찾지 못했습니다."
  const SEARCH_ERROR := "검색 중 오류가 발생했습니다: "

  /** A term, its definition and, optionally, examples of its use. */
  datatype JargonEntry = JargonEntry(term: string, definition: string, examples: Option<string>)

  /** A document of the index: its text and its metadata record. */
  datatype Document = Document(pageContent: string, metadata: map<string, string>)

  /** `item.get("examples", "")`. */
  function ExamplesOf(entry: JargonEntry): string {
    if entry.examples.Some? then entry.examples.value else ""
  }

  /** `metadata.get(key, "")`. */
  function MetaGet(metadata: map<string, string>, key: string): string {
    if key in metadata then metadata[key] else ""
  }

  const DEEP_LEARNING := JargonEntry("딥러닝이 뭐야?",
    "여러 층을 가진 인공신경망(Deep Neural Network)을 사용하여 기계학습을 수행하는 기술입니다. 인간의 뇌 신경망을 모방하여 복잡한 패턴을 학습할 수 있습니다.",
    Some("이미지 인식, 자연어 처리, 음성 인식 등에 활용됩니다."))
  const RAG := JargonEntry("RAG이 뭐야?",
    "Retrieval-Augmented Generation의 약자로, 외부 지식 소스에서 관련 정보를 검색하여 대규모 언어모델(LLM)의 응답 생성을 보강하는 방법입니다.",
    Some("챗봇이 최신 정보나 특정 도메인 지식을 활용해 답변할 때 사용됩니다."))
  const EMBEDDING := JargonEntry("임베딩이 뭐야?",
    "단어, 문장, 이미지 등의 데이터를 컴퓨터가 이해할 수 있는 고정 길이의 벡터(숫자 배열)로 변환하는 기술입니다.",
    Some("Word2Vec, BERT, OpenAI Embedding 등이 대표적입니다."))
  const FINE_TUNING := JargonEntry("파인튜닝이 뭐야?",
    "사전 훈련된 대규모 모델을 특정 작업이나 도메인에 맞게 추가로 학습시키는 과정입니다.",
    Some("GPT를 의료 분야에 특화시키거나, BERT를 감정 분석에 맞게 조정하는 것입니다."))
  const TRANSFORMER := JargonEntry("트랜스포머이 뭐야?",
    "Attention 메커니즘을 핵심으로 하는 신경망 아키텍처로, 순차적 데이터 처리에서 뛰어난 성능을 보입니다.",
    Some("GPT, BERT, T5 등 대부분의 현대 언어모델이 트랜스포머 구조를 사용합니다."))
  const VECTOR_DATABASE := JargonEntry("벡터 데이터베이스이 뭐야?",
    "벡터 형태로 변환된 데이터를 효율적으로 저장하고 유사도 기반 검색을 수행할 수 있는 특수한 데이터베이스입니다.",
    Some("Pinecone, Weaviate, Chroma, FAISS 등이 있습니다."))

  /** The six built-in entries. */
  function GetJargonData(): (entries: seq<JargonEntry>)
    ensures |entries| == 6
  {
    [DEEP_LEARNING, RAG, EMBEDDING, FINE_TUNING, TRANSFORMER, VECTOR_DATABASE]
  }

  /** The document of one entry: the definition and the examples, separated
      by a space, with the three fields as metadata. */
  function EntryDocument(entry: JargonEntry): Document {
    Document(entry.definition + " " + ExamplesOf(entry),
             map["term" := entry.term, "definition" := entry.definition, "examples" := ExamplesOf(entry)])
  }

  /** How one returned document is shown: the term in bold and its
      definition, then its examples on a second line when there are any. */
  function ResultBlock(doc: Document): string {
    var examples := MetaGet(doc.metadata, "examples");
    "**" + MetaGet(doc.metadata, "term") + "**: " + MetaGet(doc.metadata, "definition")
    + (if examples != "" then "\n*예시: " + examples + "*" else "")
  }

  /** What a search returns, given whether the index exists and what the
      similarity search did. */
  function SearchResult(ready: bool, hits: Attempt<seq<Document>>): string {
    if !ready then NOT_READY
    else match hits
      case Raised(reason) => SEARCH_ERROR + reason
      case Ok(docs) =>
        if docs == [] then NOT_FOUND
        else Join(seq(|docs|, i requires 0 <= i < |docs| => ResultBlock(docs[i])), "\n\n")
  }

  /** A block carries the examples line exactly when the document has
      non-empty examples; missing metadata fields show as empty. */
  lemma ExamplesLineExactlyWhenExamples(doc: Document)
    ensures var header := "**" + MetaGet(doc.metadata, "term") + "**: " + MetaGet(doc.metadata, "definition");
      && StartsWith(ResultBlock(doc), header)
      && (|ResultBlock(doc)| > |header| <==> MetaGet(doc.metadata, "examples") != "")
  {
  }

  /** Formatting a document built from an entry shows that entry's term,
      definition and examples. */
  lemma EntryDocumentShowsEntry(entry: JargonEntry)
    ensures ResultBlock(EntryDocument(entry)) ==
      "**" + entry.term + "**: " + entry.definition
      + (if ExamplesOf(entry) != "" then "\n*예시: " + ExamplesOf(entry) + "*" else "")
  {
    var m := EntryDocument(entry).metadata;
    assert MetaGet(m, "term") == entry.term;
    assert MetaGet(m, "definition") == entry.definition;
    assert MetaGet(m, "examples") == ExamplesOf(entry);
  }

  /** A successful search with results starts with the first term in bold,
      so it is never one of the fixed messages. */
  lemma FoundResultsStartWithFirstTerm(docs: seq<Document>)
    requires docs != []
    ensures StartsWith(SearchResult(true, Ok(docs)), "**" + MetaGet(docs[0].metadata, "term") + "**: ")
    ensures SearchResult(true, Ok(docs)) != NOT_READY && SearchResult(true, Ok(docs)) != NOT_FOUND
  {
    var blocks := seq(|docs|, i requires 0 <= i < |docs| => ResultBlock(docs[i]));
    var prefix := "**" + MetaGet(docs[0].metadata, "term") + "**: ";
    JoinStartsWithFirst(blocks, "\n\n");
    assert StartsWith(blocks[0], prefix);
    var r := SearchResult(true, Ok(docs));
    assert r[0] == '*' && NOT_READY[0] != '*' && NOT_FOUND[0] != '*';
  }

  /** The database: whether the embedding model loaded, and the index, if
      one was built, as the documents it holds. */
  class JargonDatabase {
    const embeddingsLoaded: bool
    var vectorDb: Option<seq<Document>>

    /** Loading the embedding model (which may raise) and building the
        index. */
    constructor(embeddingsLoad: Attempt<()>, indexBuild: Attempt<()>)
      ensures embeddingsLoaded == embeddingsLoad.Ok?
      ensures vectorDb == if embeddingsLoaded && indexBuild.Ok? then Some(EntryDocuments(GetJargonData())) else None
    {
      embeddingsLoaded := embeddingsLoad.Ok?;
      vectorDb := None;
      new;
      BuildDatabase(indexBuild);
    }

    /** One document per entry, in entry order; the index is replaced only
        when the embedding model is there and the build does not raise. */
    method BuildDatabase(indexBuild: Attempt<()>)
      modifies this
      ensures vectorDb == if embeddingsLoaded && indexBuild.Ok? then Some(EntryDocuments(GetJargonData())) else old(vectorDb)
    {
      if !embeddingsLoaded {
        return;
      }
      var jargonData := GetJargonData();
      var documents: seq<Document> := [];
      for i := 0 to |jargonData|
        invariant documents == EntryDocuments(jargonData[..i])
      {
        var item := jargonData[i];
        var content := item.definition + " " + ExamplesOf(item);
        var doc := Document(content, map["term" := item.term, "definition" := item.definition, "examples" := ExamplesOf(item)]);
        assert jargonData[..i + 1] == jargonData[..i] + [item];
        documents := documents + [doc];
      }
      assert jargonData[..|jargonData|] == jargonData;
      if indexBuild.Ok? {
        vectorDb := Some(documents);
      }
    }

    /** The search: the fixed messages when there is no index or nothing was
        found, the error text when the search raised, otherwise one block
        per returned document, in returned order, separated by blank lines. */
    method SearchJargon(query: string, k: int, hits: Attempt<seq<Document>>) returns (result: string)
      ensures result == SearchResult(vectorDb.Some?, hits)
    {
      if vectorDb.None? {
        return NOT_READY;
      }
      if hits.Raised? {
        return SEARCH_ERROR + hits.reason;
      }
      var docs := hits.value;
      if docs == [] {
        return NOT_FOUND;
      }
      var results: seq<string> := [];
      for i := 0 to |docs|
        invariant |results| == i
        invariant forall j :: 0 <= j < i ==> results[j] == ResultBlock(docs[j])
      {
        var term := MetaGet(docs[i].metadata, "term");
        var definition := MetaGet(docs[i].metadata, "definition");
        var examples := MetaGet(docs[i].metadata, "examples");
        var block := "**" + term + "**: " + definition;
        if examples != "" {
          block := block + "\n*예시: " + examples + "*";
        }
        results := results + [block];
      }
      assert results == seq(|docs|, i requires 0 <= i < |docs| => ResultBlock(docs[i]));
      result := Join(results, "\n\n");
    }
  }

  /** The documents of the entries, in entry order. */
  function EntryDocuments(entries: seq<JargonEntry>): (docs: seq<Document>)
    ensures |docs| == |entries|
    ensures forall i :: 0 <= i < |entries| ==> docs[i] == EntryDocument(entries[i])
  {
    if entries == [] then [] else EntryDocuments(entries[..|entries| - 1]) + [EntryDocument(entries[|entries| - 1])]
  }
}
