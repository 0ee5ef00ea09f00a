# Education AI Program: selection dispatch, modelled in Dafny

The app is a Streamlit chat front end for retrieval-augmented answering. The
user picks an LLM ("Anthropic Claude V2", "Amazon Titan Text Express v1",
"Ai21 Labs Jurassic-2 Ultra", "GPT-4-1106-preview") and a vector store
("Pinecone: Highschool democracy", "Pinecone: University of Arizona",
"Kendra: Highschool democracy"). Each non-empty prompt goes to
`retrieval_answer`. That function turns the two labels into a Bedrock or
OpenAI model configuration and a Pinecone or Kendra retriever, or into the
error message it returns in place of an answer. It then builds a "stuff"
retrieval QA chain and runs it on the query.

This project models that logic as pure functions:

- `wrappers.dfy`, module `Wrappers`: `Option` and `Result`.
- `appconfig.dfy`, module `AppConfig`: the values loaded from `config.toml`,
  as an explicit `Settings` record. Also the constants written in the source:
  `max_tokens` = 1024 and the two Pinecone index names.
- `retrievers.dfy`, module `Retrievers`: `get_kendra_doc_retriever` and
  `embedding_db`, as the retriever configurations they build.
- `selection.dfy`, module `Selection`: the LLM dispatch, the vector-store
  dispatch, their order of checks, and chain construction. It also holds
  `retrieval_answer` and the properties of the selection table.
- `registry.dfy`, module `Registry`: a reference definition of both
  selections as label → configuration tables, with proofs that the chained
  conditionals select exactly the table entry.
- `chat.dfy`, module `Chat`: the prompt guard that decides whether
  `retrieval_answer` is called.

The store label is a module-level global in the app (set by the sidebar,
read inside `retrieval_answer`). Here it is an explicit parameter.
`source` stays a string, as in the app. A source that the chain
construction does not handle would leave `response` unassigned at the final
`return`; that case is the `UnboundResponse` reply, and
`Selection.RetrievalAnswer` proves it never happens.

Behaviour of the code worth noting:

- The selection errors are plain strings. They are returned as the answer
  and shown with the success style, not raised as distinct error kinds.
- The store label is checked only after the LLM label has been accepted.
- `retrieval_answer` does not reject an empty query itself. Only the chat
  guard keeps empty prompts away from it.
- The "University of Arizona" label does not select its own index. See
  `Retrievers.EmbeddingDb`.

## Model

| member | source | states |
|---|---|---|
| `Retrievers.KendraDocRetriever` | streamlit_app.py:31-40 | The Kendra retriever uses the configured index and region. It asks Kendra for the top 3 documents (`top_k` 3) and filters on `_language_code` equal to `en`. |
| `Retrievers.EmbeddingDb` | streamlit_app.py:42-53 | The store built is a Pinecone store over `unidosus-edai-hsdemocracy` whatever index name is passed. It uses the configured Pinecone key and environment, the `us-east-1` embedding region and the `text` field. |
| `Retrievers.EmbeddingDbIgnoresIndexName` | streamlit_app.py:45 | Any two index-name arguments give the same store. Asking for `unidosus-edai-asu` does not open that index. |
| `Selection.ResolveLlm` | streamlit_app.py:60-76 | A label is accepted exactly when it is one of the four offered. Any other label fails with exactly "Invalid LLM model selection.". A Bedrock result uses the Bedrock region. Its kwargs hold only two keys: one of the three families' length keys mapped to 1024, and the temperature. Only the GPT-4 label gives an OpenAI chat model. |
| `Selection.ResolveStore` | streamlit_app.py:79-89 | A label is accepted exactly when it is one of the three offered. Any other label fails with exactly "Invalid Vector DB selection.". The source is always `Pinecone` or `Kendra`. It is `Kendra` only for the Kendra label, and `Pinecone` exactly when the retriever is a Pinecone store. Pinecone stores open the high-school democracy index. The Kendra retriever has top_k 3 and the English filter. |
| `Selection.Resolve` | streamlit_app.py:56-89 | Succeeds exactly when both labels are offered ones. An unknown LLM label gives the LLM error whatever the store label. A known LLM label with an unknown store label gives the Vector DB error. On success, the pair is the two individual resolutions. |
| `Selection.BuildChain` | streamlit_app.py:92-97 | A chain is built exactly for the sources `Pinecone` and `Kendra`. It is a "stuff" chain over the chosen LLM and the chosen retriever. A Pinecone store is wrapped with `as_retriever()`; a Kendra retriever is passed directly. |
| `Selection.RetrievalAnswer` | streamlit_app.py:56-98 | A reply is always produced: the response is never read unassigned. The reply is an error message exactly when resolution fails, and it is that failure's message. Otherwise the chain runs on the query itself. It is the chain built for the resolved pair: a "stuff" chain over the resolved LLM, with a Pinecone store wrapped by `as_retriever()` and a Kendra retriever passed directly. |
| `Selection.BedrockLabelsResolve` | streamlit_app.py:60-71 | Each label maps to its model id: Claude to `anthropic.claude-v2`, Titan to `amazon.titan-text-express-v1`, Jurassic to `ai21.j2-ultra-v1`. The length 1024 sits under `max_tokens_to_sample`, `maxTokenCount` and `maxTokens` respectively, beside the temperature. |
| `Selection.BedrockKwargsKeysDiffer` | streamlit_app.py:60-71 | Two different Bedrock labels get different sets of kwargs keys, because each family has its own length key. No length key is the temperature key. |
| `Selection.Gpt4Resolves` | streamlit_app.py:72-73 | "GPT-4-1106-preview" gives the OpenAI chat model `gpt-4-1106-preview`, with no Bedrock kwargs. |
| `Selection.ResolveLlmInjective` | streamlit_app.py:60-73 | Two labels that resolve to the same configuration are the same label. |
| `Selection.PineconeLabelsCoincide` | streamlit_app.py:79-84 | Both Pinecone labels resolve to the same store, over `unidosus-edai-hsdemocracy`. |
| `Selection.KendraLabelResolves` | streamlit_app.py:85-87 | The Kendra label gives source `Kendra` with the English-only Kendra retriever: configured index and region, top_k 3. |
| `Selection.InvalidLlmAnswer` | streamlit_app.py:56-76 | For an unknown LLM label the answer is exactly "Invalid LLM model selection.", whatever the store label. No chain is run. |
| `Selection.InvalidStoreAnswer` | streamlit_app.py:78-89 | For a known LLM label and an unknown store label the answer is exactly "Invalid Vector DB selection.". No chain is run. |
| `Selection.SidebarChoicesRunChain` | streamlit_app.py:110-112 | Every pair of sidebar choices runs a chain on the query, so neither error message can come from the sidebar. |
| `Registry.Lookup` | streamlit_app.py:60-89 | The lookup fails exactly when no entry has the key. Otherwise it returns the value of the first entry with that key. |
| `Registry.RegistriesMatchSidebar` | streamlit_app.py:111-112 | The two registries hold exactly the sidebar's labels, in the sidebar's order. |
| `Registry.ResolveLlmIsRegistryLookup` | streamlit_app.py:60-76 | For every label, the LLM dispatch equals a lookup in the LLM registry, failing with the invalid-LLM message. |
| `Registry.ResolveStoreIsRegistryLookup` | streamlit_app.py:79-89 | For every label, the store dispatch equals a lookup in the retriever registry, failing with the invalid-Vector-DB message. |
| `Chat.ChatTurnAsWritten` | streamlit_app.py:114-120 | As written, a turn shows something exactly when the prompt is present and non-empty. The empty-query error is never shown. |
| `Chat.EmptyPromptShowsNothing` | streamlit_app.py:114-120 | As written, an empty prompt shows nothing. The corrected turn shows "Please enter a query." for it. |
| `Chat.ChatTurn` | streamlit_app.py:114-120 | A turn shows nothing exactly when no prompt was submitted. An empty prompt shows only "Please enter a query.". A non-empty prompt shows "Your Query: " and the prompt, then the answer to that prompt. A chain is never run on an empty query. |
| `Chat.ChatTurnAgreesOffEmpty` | streamlit_app.py:114-120 | The corrected turn and the turn as written agree on every prompt except the empty one. |

## Left out

- Backend calls are not modelled: the boto3 Bedrock and Kendra clients, Pinecone `init`/`Index`, `BedrockEmbeddings`, `AmazonKendraRetriever`, and running the `RetrievalQA` chain, including its "stuff" prompt assembly. They are network I/O and library code. The model produces the configuration and the chain that would be run; `ChainResult` stands for the chain's `result` field.
- The Bedrock runtime client that `retrieval_answer` creates before dispatch, even for GPT-4, is not modelled. It has no effect on the result.
- Loading `config.toml` and setting the `OPENAI_API_KEY` environment variable are not modelled. This is file and process I/O; the loaded values are the opaque fields of `AppConfig.Settings`.
- The temperature 0.7 is a float. It is carried only as the opaque `TemperatureArg` and never reasoned about numerically.
- The Streamlit UI is not modelled: title, caption, session-state message history and its rendering, and the sidebar widgets. Only the sidebar's option lists and the prompt guard are modelled.
- Backend failures (network, credentials, quota) are not modelled. The app does not handle them; they surface as exceptions from the library calls.

## Findings

| source | as written | input that shows it | evidently intended | confidence | as-written member | corrected member |
|---|---|---|---|---|---|---|
| streamlit_app.py:114-120 | The prompt's truth value is tested before its length. Python treats the empty string as false, so the length test always passes and the "Please enter a query." branch never runs. | A submitted empty prompt `Some("")`: nothing is shown. | An empty prompt shows "Please enter a query." and `retrieval_answer` is not called. | High that the branch is unreachable; not executed. The chat widget may also refuse to submit an empty prompt. | `Chat.ChatTurnAsWritten` (see `Chat.EmptyPromptShowsNothing`) | `Chat.ChatTurn` |
