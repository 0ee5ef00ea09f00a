/**
 * One turn of the chat box: what a submitted prompt causes to be shown.
 * The prompt is absent until the user submits one. The answering function
 * is reached only with a non-empty prompt.
 */
module Chat {
  import opened Wrappers
  import opened AppConfig
  import opened Selection

  /** The elements a turn renders, in order. */
  datatype Shown = Info(text: string) | Success(reply: Reply) | Error(text: string)

  const EmptyQueryMessage: string := "Please enter a query."

  /** Python's truth value of the prompt box: absent and empty prompts are false. */
  predicate Truthy(prompt: Option<string>) {
    prompt.Some? && |prompt.value| > 0
  }

  /**
   * The turn as the app is written: the prompt is first tested for its
   * truth value and only then for its length, so the empty-prompt error is
   * out of reach and an empty prompt renders nothing at all.
   */
  function ChatTurnAsWritten(prompt: Option<string>, llmLabel: string, storeLabel: string, s: Settings): (r: seq<Shown>)
    ensures r == [] <==> !Truthy(prompt)
    ensures Error(EmptyQueryMessage) !in r
  {
    if Truthy(prompt) then
      if |prompt.value| > 0 then
        [Info("Your Query: " + prompt.value), Success(RetrievalAnswer(prompt.value, llmLabel, storeLabel, s))]
      else
        [Error(EmptyQueryMessage)]
    else
      []
  }

  /** As written, submitting an empty prompt shows nothing, not the empty-query error. */
  lemma EmptyPromptShowsNothing(llmLabel: string, storeLabel: string, s: Settings)
    ensures ChatTurnAsWritten(Some(""), llmLabel, storeLabel, s) == []
    ensures ChatTurn(Some(""), llmLabel, storeLabel, s) == [Error(EmptyQueryMessage)]
  {
  }

  /**
   * The turn as its empty-prompt branch intends: nothing before a prompt is
   * submitted, the empty-query error for an empty prompt, and otherwise the
   * echoed query followed by the answer to it.
   */
  function ChatTurn(prompt: Option<string>, llmLabel: string, storeLabel: string, s: Settings): (r: seq<Shown>)
    ensures r == [] <==> prompt.None?
    ensures prompt == Some("") ==> r == [Error(EmptyQueryMessage)]
    ensures Truthy(prompt) ==> |r| == 2 && r[0] == Info("Your Query: " + prompt.value) && r[1].Success?
    ensures forall e | e in r && e.Success? :: e.reply == RetrievalAnswer(prompt.value, llmLabel, storeLabel, s)
    ensures forall e | e in r && e.Success? && e.reply.ChainResult? :: |e.reply.query| > 0
  {
    match prompt
    case None => []
    case Some(text) =>
      if |text| > 0 then
        [Info("Your Query: " + text), Success(RetrievalAnswer(text, llmLabel, storeLabel, s))]
      else
        [Error(EmptyQueryMessage)]
  }

  /** Both turns agree on every prompt except the empty one. */
  lemma ChatTurnAgreesOffEmpty(prompt: Option<string>, llmLabel: string, storeLabel: string, s: Settings)
    requires prompt != Some("")
    ensures ChatTurnAsWritten(prompt, llmLabel, storeLabel, s) == ChatTurn(prompt, llmLabel, storeLabel, s)
  {
  }
}
