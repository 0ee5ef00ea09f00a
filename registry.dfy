/**
 * A reference definition of the two selections as fixed tables from label
 * to configuration, looked up by label. The lemmas show that the chained
 * conditionals of the answering function pick exactly the table's entry,
 * and reject exactly the labels the table does not hold.
 */
module Registry {
  import opened Wrappers
  import opened AppConfig
  import opened Retrievers
  import opened Selection

  /** The value of the first entry of `table` whose key is `key`. */
  function Lookup<V>(table: seq<(string, V)>, key: string): (r: Option<V>)
    ensures r.None? <==> forall i | 0 <= i < |table| :: table[i].0 != key
    ensures r.Some? ==> exists i | 0 <= i < |table| ::
      && table[i] == (key, r.value)
      && forall j | 0 <= j < i :: table[j].0 != key
    decreases |table|
  {
    if |table| == 0 then None
    else if table[0].0 == key then Some(table[0].1)
    else
      var rest := Lookup(table[1..], key);
      assert forall i | 1 <= i < |table| :: table[i] == table[1..][i - 1];
      rest
  }

  /** The label of every entry, in order. */
  function Keys<V>(table: seq<(string, V)>): (r: seq<string>)
    ensures |r| == |table|
    ensures forall i | 0 <= i < |table| :: r[i] == table[i].0
  {
    if |table| == 0 then [] else [table[0].0] + Keys(table[1..])
  }

  /** The LLM registry: each offered label with its configuration. */
  function LlmRegistry(s: Settings): seq<(string, Llm)> {
    [ (ClaudeLabel, Bedrock("anthropic.claude-v2", "max_tokens_to_sample", s)),
      (TitanLabel, Bedrock("amazon.titan-text-express-v1", "maxTokenCount", s)),
      (JurassicLabel, Bedrock("ai21.j2-ultra-v1", "maxTokens", s)),
      (Gpt4Label, OpenAIChatLlm("gpt-4-1106-preview")) ]
  }

  /** The retriever registry: each offered label with its retriever and source. */
  function StoreRegistry(s: Settings): seq<(string, StoreChoice)> {
    [ (PineconeHsLabel, StoreChoice(EmbeddingDb(IndexPineconeHsDemocracy, s), "Pinecone")),
      (PineconeAsuLabel, StoreChoice(EmbeddingDb(IndexPineconeAsu, s), "Pinecone")),
      (KendraHsLabel, StoreChoice(KendraDocRetriever(s), "Kendra")) ]
  }

  /** The registries hold exactly the labels the sidebar offers, in the same order. */
  lemma {:induction false} RegistriesMatchSidebar(s: Settings)
    ensures Keys(LlmRegistry(s)) == LlmOptions
    ensures Keys(StoreRegistry(s)) == StoreOptions
  {
  }

  /** The LLM dispatch is a lookup in the LLM registry, failing with the invalid-LLM message. */
  lemma {:induction false} ResolveLlmIsRegistryLookup(name: string, s: Settings)
    ensures ResolveLlm(name, s) == ToResult(Lookup(LlmRegistry(s), name), InvalidLlmMessage)
  {
    var table := LlmRegistry(s);
    assert Lookup(table, name) == if name == ClaudeLabel then Some(table[0].1) else Lookup(table[1..], name);
    assert Lookup(table[1..], name) == if name == TitanLabel then Some(table[1].1) else Lookup(table[2..], name);
    assert Lookup(table[2..], name) == if name == JurassicLabel then Some(table[2].1) else Lookup(table[3..], name);
    assert Lookup(table[3..], name) == if name == Gpt4Label then Some(table[3].1) else Lookup(table[4..], name);
  }

  /** The store dispatch is a lookup in the retriever registry, failing with the invalid-Vector-DB message. */
  lemma {:induction false} ResolveStoreIsRegistryLookup(name: string, s: Settings)
    ensures ResolveStore(name, s) == ToResult(Lookup(StoreRegistry(s), name), InvalidStoreMessage)
  {
    var table := StoreRegistry(s);
    assert Lookup(table, name) == if name == PineconeHsLabel then Some(table[0].1) else Lookup(table[1..], name);
    assert Lookup(table[1..], name) == if name == PineconeAsuLabel then Some(table[1].1) else Lookup(table[2..], name);
    assert Lookup(table[2..], name) == if name == KendraHsLabel then Some(table[2].1) else Lookup(table[3..], name);
  }
}
