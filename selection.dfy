/**
 * The selection dispatch of the answering function: two user-chosen labels
 * become an LLM configuration and a retriever configuration, or the error
 * message the app returns in place of an answer. Then the retrieval chain
 * is built for the chosen source.
 */
module Selection {
  import opened Wrappers
  import opened AppConfig
  import opened Retrievers

  // ---------------------------------------------------------------------
  // Labels offered by the sidebar and the two error messages

  const ClaudeLabel: string := "Anthropic Claude V2"
  const TitanLabel: string := "Amazon Titan Text Express v1"
  const JurassicLabel: string := "Ai21 Labs Jurassic-2 Ultra"
  const Gpt4Label: string := "GPT-4-1106-preview"

  const PineconeHsLabel: string := "Pinecone: Highschool democracy"
  const PineconeAsuLabel: string := "Pinecone: University of Arizona"
  const KendraHsLabel: string := "Kendra: Highschool democracy"

  /** The choices of the "Select LLM" box, in display order. */
  const LlmOptions: seq<string> := [ClaudeLabel, TitanLabel, JurassicLabel, Gpt4Label]

  /** The choices of the "Select Vector DB" box, in display order. */
  const StoreOptions: seq<string> := [PineconeHsLabel, PineconeAsuLabel, KendraHsLabel]

  const InvalidLlmMessage: string := "Invalid LLM model selection."
  const InvalidStoreMessage: string := "Invalid Vector DB selection."

  // ---------------------------------------------------------------------
  // LLM configurations

  /** A model keyword argument: an integer, or the configured temperature (kept opaque). */
  datatype KwargValue = IntArg(n: int) | TemperatureArg

  datatype Llm =
    | BedrockLlm(modelId: string, region: string, kwargs: map<string, KwargValue>)
    | OpenAIChatLlm(modelName: string)

  const TemperatureKey: string := "temperature"

  /** The names the three Bedrock model families give to the maximum output length. */
  const LengthKeys: set<string> := {"max_tokens_to_sample", "maxTokenCount", "maxTokens"}

  /**
   * Keyword arguments that set the shared maximum output length under one
   * family's length key, the temperature, and nothing else.
   */
  predicate LengthKeyed(kwargs: map<string, KwargValue>) {
    exists lengthKey | lengthKey in LengthKeys ::
      && kwargs.Keys == {lengthKey, TemperatureKey}
      && kwargs[lengthKey] == IntArg(MaxTokens)
      && kwargs[TemperatureKey] == TemperatureArg
  }

  /** A Bedrock model with the shared length and temperature under the given length key. */
  function Bedrock(modelId: string, lengthKey: string, s: Settings): Llm {
    BedrockLlm(modelId, s.bedrockRegion, map[lengthKey := IntArg(MaxTokens), TemperatureKey := TemperatureArg])
  }

  /**
   * The LLM selection. A label outside the four offered is rejected with
   * the invalid-LLM message; each Bedrock model receives the shared maximum
   * output length under its own family's key, and nothing else but the
   * temperature; GPT-4 is an OpenAI chat model with no Bedrock arguments.
   */
  function ResolveLlm(name: string, s: Settings): (r: Result<Llm, string>)
    ensures r.Ok? <==> name in LlmOptions
    ensures r.Err? ==> r.error == InvalidLlmMessage
    ensures r.Ok? && r.value.BedrockLlm? ==>
      && r.value.region == s.bedrockRegion
      && LengthKeyed(r.value.kwargs)
    ensures r.Ok? ==> (r.value.OpenAIChatLlm? <==> name == Gpt4Label)
  {
    if name == ClaudeLabel then
      Ok(Bedrock("anthropic.claude-v2", "max_tokens_to_sample", s))
    else if name == TitanLabel then
      Ok(Bedrock("amazon.titan-text-express-v1", "maxTokenCount", s))
    else if name == JurassicLabel then
      Ok(Bedrock("ai21.j2-ultra-v1", "maxTokens", s))
    else if name == Gpt4Label then
      Ok(OpenAIChatLlm("gpt-4-1106-preview"))
    else
      Err(InvalidLlmMessage)
  }

  // ---------------------------------------------------------------------
  // Retriever configurations

  /** The retriever built for a store label, and the name of its source. */
  datatype StoreChoice = StoreChoice(retriever: Retriever, source: string)

  /** The sources the chain construction handles. */
  const HandledSources: set<string> := {"Pinecone", "Kendra"}

  /**
   * The vector-store selection. A label outside the three offered is
   * rejected with the invalid-Vector-DB message. Both Pinecone labels open
   * the high-school democracy index; the Kendra label gives the English-only
   * Kendra retriever returning three documents.
   */
  function ResolveStore(name: string, s: Settings): (r: Result<StoreChoice, string>)
    ensures r.Ok? <==> name in StoreOptions
    ensures r.Err? ==> r.error == InvalidStoreMessage
    ensures r.Ok? ==> r.value.source in HandledSources
    ensures r.Ok? ==> (r.value.source == "Kendra" <==> name == KendraHsLabel)
    ensures r.Ok? ==> (r.value.source == "Pinecone" <==> r.value.retriever.PineconeStore?)
    ensures r.Ok? && r.value.retriever.PineconeStore? ==>
      r.value.retriever.indexName == IndexPineconeHsDemocracy
    ensures r.Ok? && r.value.retriever.KendraRetriever? ==>
      r.value.retriever.topK == 3 && r.value.retriever.filter == EqualsTo("_language_code", "en")
  {
    if name == PineconeHsLabel then
      Ok(StoreChoice(EmbeddingDb(IndexPineconeHsDemocracy, s), "Pinecone"))
    else if name == PineconeAsuLabel then
      Ok(StoreChoice(EmbeddingDb(IndexPineconeAsu, s), "Pinecone"))
    else if name == KendraHsLabel then
      Ok(StoreChoice(KendraDocRetriever(s), "Kendra"))
    else
      Err(InvalidStoreMessage)
  }

  // ---------------------------------------------------------------------
  // The whole selection, with its order of checks

  /**
   * Both selections together. The LLM label is checked first and its
   * error wins; the store label is checked only for a valid LLM label.
   */
  function Resolve(llmLabel: string, storeLabel: string, s: Settings): (r: Result<(Llm, StoreChoice), string>)
    ensures r.Ok? <==> llmLabel in LlmOptions && storeLabel in StoreOptions
    ensures llmLabel !in LlmOptions ==> r == Err(InvalidLlmMessage)
    ensures llmLabel in LlmOptions && storeLabel !in StoreOptions ==> r == Err(InvalidStoreMessage)
    ensures r.Ok? ==> r.value.0 == ResolveLlm(llmLabel, s).value && r.value.1 == ResolveStore(storeLabel, s).value
  {
    match ResolveLlm(llmLabel, s)
    case Err(e) => Err(e)
    case Ok(llm) =>
      match ResolveStore(storeLabel, s)
      case Err(e) => Err(e)
      case Ok(choice) => Ok((llm, choice))
  }

  // ---------------------------------------------------------------------
  // Building the chain and the answer

  /** How the chain is given its retriever: a vector store wrapped by `as_retriever()`, or the retriever itself. */
  datatype RetrieverHandle = AsRetriever(store: Retriever) | Direct(retriever: Retriever)

  /** A retrieval QA chain that stuffs every retrieved document into one prompt. */
  datatype Chain = Chain(llm: Llm, chainType: string, handle: RetrieverHandle)

  function Underlying(h: RetrieverHandle): Retriever {
    match h
    case AsRetriever(store) => store
    case Direct(retriever) => retriever
  }

  /**
   * The chain for a resolved pair; None for a source the construction does
   * not handle, where the answer would be read before it was ever assigned.
   */
  function BuildChain(llm: Llm, choice: StoreChoice): (r: Option<Chain>)
    ensures r.Some? <==> choice.source in HandledSources
    ensures r.Some? ==> r.value.llm == llm && r.value.chainType == "stuff"
    ensures r.Some? ==> Underlying(r.value.handle) == choice.retriever
    ensures r.Some? ==> (r.value.handle.AsRetriever? <==> choice.source == "Pinecone")
  {
    if choice.source == "Pinecone" then
      Some(Chain(llm, "stuff", AsRetriever(choice.retriever)))
    else if choice.source == "Kendra" then
      Some(Chain(llm, "stuff", Direct(choice.retriever)))
    else
      None
  }

  /**
   * What the answering function returns: a message of its own, the result
   * field of running a chain on the query, or the failure of reading a
   * response that no branch assigned.
   */
  datatype Reply = Message(text: string) | ChainResult(chain: Chain, query: string) | UnboundResponse

  /**
   * The answering function. Running the chain is a call into the
   * retrieval library and the model backends, so the reply names the chain
   * and the query it is run on.
   */
  function RetrievalAnswer(query: string, llmLabel: string, storeLabel: string, s: Settings): (r: Reply)
    ensures r != UnboundResponse
    ensures r.Message? <==> Resolve(llmLabel, storeLabel, s).Err?
    ensures r.Message? ==> r.text == Resolve(llmLabel, storeLabel, s).error
    ensures r.ChainResult? ==>
      && r.query == query
      && r.chain.llm == ResolveLlm(llmLabel, s).value
      && Underlying(r.chain.handle) == ResolveStore(storeLabel, s).value.retriever
      && Some(r.chain) == BuildChain(ResolveLlm(llmLabel, s).value, ResolveStore(storeLabel, s).value)
  {
    match Resolve(llmLabel, storeLabel, s)
    case Err(e) => Message(e)
    case Ok((llm, choice)) =>
      match BuildChain(llm, choice)
      case Some(chain) => ChainResult(chain, query)
      case None => UnboundResponse
  }

  // ---------------------------------------------------------------------
  // Properties of the selection table

  /** Each Bedrock label maps to its fixed model id, with the shared length under its family's key. */
  lemma BedrockLabelsResolve(s: Settings)
    ensures ResolveLlm(ClaudeLabel, s) == Ok(BedrockLlm("anthropic.claude-v2", s.bedrockRegion,
      map["max_tokens_to_sample" := IntArg(1024), "temperature" := TemperatureArg]))
    ensures ResolveLlm(TitanLabel, s) == Ok(BedrockLlm("amazon.titan-text-express-v1", s.bedrockRegion,
      map["maxTokenCount" := IntArg(1024), "temperature" := TemperatureArg]))
    ensures ResolveLlm(JurassicLabel, s) == Ok(BedrockLlm("ai21.j2-ultra-v1", s.bedrockRegion,
      map["maxTokens" := IntArg(1024), "temperature" := TemperatureArg]))
  {
  }

  /**
   * Two different Bedrock labels put the length under different keys, so
   * their keyword arguments have different key sets; no length key is the
   * temperature key.
   */
  lemma BedrockKwargsKeysDiffer(a: string, b: string, s: Settings)
    requires a != b
    requires ResolveLlm(a, s).Ok? && ResolveLlm(a, s).value.BedrockLlm?
    requires ResolveLlm(b, s).Ok? && ResolveLlm(b, s).value.BedrockLlm?
    ensures ResolveLlm(a, s).value.kwargs.Keys != ResolveLlm(b, s).value.kwargs.Keys
    ensures TemperatureKey !in LengthKeys
  {
  }

  /** GPT-4 is the OpenAI chat model of that name, without Bedrock keyword arguments. */
  lemma Gpt4Resolves(s: Settings)
    ensures ResolveLlm(Gpt4Label, s) == Ok(OpenAIChatLlm("gpt-4-1106-preview"))
  {
  }

  /** Distinct LLM labels never resolve to the same configuration. */
  lemma ResolveLlmInjective(a: string, b: string, s: Settings)
    requires ResolveLlm(a, s).Ok? && ResolveLlm(a, s) == ResolveLlm(b, s)
    ensures a == b
  {
  }

  /** Both Pinecone labels give the same store: the one over the high-school democracy index. */
  lemma PineconeLabelsCoincide(s: Settings)
    ensures ResolveStore(PineconeHsLabel, s) == ResolveStore(PineconeAsuLabel, s)
    ensures ResolveStore(PineconeAsuLabel, s).value.retriever.indexName == IndexPineconeHsDemocracy
  {
  }

  /** The Kendra label gives the English-only Kendra retriever over the configured index, returning three documents. */
  lemma KendraLabelResolves(s: Settings)
    ensures ResolveStore(KendraHsLabel, s) ==
      Ok(StoreChoice(KendraRetriever(s.kendraIndex, s.kendraRegion, 3, EqualsTo("_language_code", "en")), "Kendra"))
  {
  }

  /** An unknown LLM label is answered by the invalid-LLM message, whatever the store label, and no chain is run. */
  lemma InvalidLlmAnswer(query: string, llmLabel: string, storeLabel: string, s: Settings)
    requires llmLabel !in LlmOptions
    ensures RetrievalAnswer(query, llmLabel, storeLabel, s) == Message("Invalid LLM model selection.")
  {
  }

  /** A known LLM label with an unknown store label is answered by the invalid-Vector-DB message, and no chain is run. */
  lemma InvalidStoreAnswer(query: string, llmLabel: string, storeLabel: string, s: Settings)
    requires llmLabel in LlmOptions && storeLabel !in StoreOptions
    ensures RetrievalAnswer(query, llmLabel, storeLabel, s) == Message("Invalid Vector DB selection.")
  {
  }

  /** Every pair of sidebar choices runs a chain on the query; neither error message is ever returned for them. */
  lemma SidebarChoicesRunChain(query: string, s: Settings)
    ensures forall i, j | 0 <= i < |LlmOptions| && 0 <= j < |StoreOptions| ::
      RetrievalAnswer(query, LlmOptions[i], StoreOptions[j], s).ChainResult?
  {
  }
}
