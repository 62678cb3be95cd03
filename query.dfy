/**
 * The decision logic of the `/` route: an empty question gets an empty answer; otherwise
 * the index is loaded if the store is empty, an empty store still gets the "no data"
 * answer, no retrieved chunk gets the "no relevant information" answer, and otherwise
 * the retrieved chunks, newline-joined and cut to 1500 characters, go into the prompt
 * sent to the chat model, whose failure is turned into an error answer.
 *
 * Embedding the question and ranking the stored chunks are one step whose outcome is
 * the given `Retrieval`; the chat call is the given function `chat` from prompt to reply.
 */
module Query {
  import opened Wrappers
  import opened Text
  import opened Fetcher
  import opened VectorStore
  import opened IndexBuilder

  const NoDataAnswer: string :=
    "No Confluence data found in database. Please check your Confluence configuration and restart the application."
  const NoMatchAnswer: string := "No relevant information found in the Confluence data for your question."
  const ErrorPrefix: string := "Sorry, I couldn't process your question. Error: "
  const ModelErrorPrefix: string := "Sorry, I couldn't process your question. Ollama error: "

  /** The character budget of the context handed to the chat model. */
  const ContextLimit: nat := 1500

  /** The fixed text of the prompt around the context and the question. */
  const PromptHead: string :=
    "You are a helpful assistant that answers questions based on Confluence documentation. \n\nDOCUMENTATION:\n"
  const QuestionMarker: string := "\n\nQUESTION: "
  const PromptTail: string :=
    "\n\nInstructions:\n"
    + "- Answer concisely and directly based ONLY on the provided documentation\n"
    + "- If the information isn't in the documentation, say \"This information is not available in the documentation\"\n"
    + "- Focus on the most relevant details\n"
    + "- Keep your answer under 100 words\n\nANSWER:"

  /** A GET carries no form; a POST may or may not carry a `question` field. */
  datatype Request = Get | Post(question: Option<string>)

  /** Encoding the question and querying the store: the documents per query embedding, or the exception's message. */
  datatype Retrieval = Retrieved(documents: seq<seq<string>>) | RetrievalFailed(message: string)

  /** The chat call: the reply's `message.content`, an exception from the call, or a reply lacking those keys. */
  datatype Reply = Answered(content: string) | ChatFailed(message: string) | Malformed(message: string)

  /** What the page shows (`answer`, `question`), whether the question was encoded, and the prompt sent, if any. */
  datatype Outcome = Outcome(question: string, answer: string, questionEncoded: bool, prompt: Option<string>)

  function QuestionOf(request: Request): (question: string)
    ensures request.Get? ==> question == ""
    ensures request.Post? && request.question.Some? ==> question == request.question.value
    ensures request.Post? && request.question.None? ==> question == ""
  {
    match request
    case Get => ""
    case Post(field) => field.GetOr("")
  }

  /** `"\n".join(chunks)[:1500]`. */
  function Context(chunks: seq<string>): string {
    var joined := Join("\n", chunks);
    joined[..Min(ContextLimit, |joined|)]
  }

  function Prompt(context: string, question: string): string {
    PromptHead + context + QuestionMarker + question + PromptTail
  }

  /**
   * The answer to `question` once the store holds `total` chunks. The question is encoded
   * exactly when it is non-empty and the store holds a chunk: an empty question gets `""`
   * and an empty store the "no data" answer, neither touching the encoder or the chat
   * model. Past that, a retrieval exception or a malformed reply gives the generic error
   * text with the message, no chunk gives the "no relevant information" answer, a chat
   * exception gives the model error text with the message, and a reply is shown as it is.
   */
  function Respond(question: string, total: nat, retrieval: Retrieval, chat: string -> Reply): (o: Outcome)
    ensures o.question == question
    ensures o.questionEncoded <==> question != "" && total > 0
    ensures question == "" ==> o.answer == "" && o.prompt.None?
    ensures question != "" && total == 0 ==> o.answer == NoDataAnswer && o.prompt.None?
    ensures o.questionEncoded && retrieval.RetrievalFailed? ==> o.answer == ErrorPrefix + retrieval.message
    ensures o.questionEncoded && retrieval.Retrieved? && Concat(retrieval.documents) == [] ==> o.answer == NoMatchAnswer
    ensures o.prompt.Some? ==>
      match chat(o.prompt.value)
      case Answered(content) => o.answer == content
      case ChatFailed(message) => o.answer == ModelErrorPrefix + message
      case Malformed(message) => o.answer == ErrorPrefix + message
  {
    if question == "" then Outcome(question, "", false, None)
    else if total == 0 then Outcome(question, NoDataAnswer, false, None)
    else
      match retrieval
      case RetrievalFailed(message) => Outcome(question, ErrorPrefix + message, true, None)
      case Retrieved(documents) =>
        var chunks := Concat(documents);
        if chunks == [] then Outcome(question, NoMatchAnswer, true, None)
        else
          var prompt := Prompt(Context(chunks), question);
          match chat(prompt)
          case Answered(content) => Outcome(question, content, true, Some(prompt))
          case ChatFailed(message) => Outcome(question, ModelErrorPrefix + message, true, Some(prompt))
          case Malformed(message) => Outcome(question, ErrorPrefix + message, true, Some(prompt))
  }

  /**
   * The context is the longest prefix of the newline-joined chunks that fits the budget:
   * the whole join when it fits, else its first 1500 characters. It starts with the
   * best-ranked chunk, or with as much of it as fits.
   */
  lemma ContextIsBudgetedPrefix(chunks: seq<string>)
    ensures var joined, context := Join("\n", chunks), Context(chunks);
      && |context| <= ContextLimit
      && context == joined[..|context|]
      && (|joined| <= ContextLimit ==> context == joined)
      && (|joined| > ContextLimit ==> |context| == ContextLimit)
    ensures chunks != [] && |chunks[0]| <= ContextLimit ==> Context(chunks)[..|chunks[0]|] == chunks[0]
    ensures chunks != [] && |chunks[0]| > ContextLimit ==> Context(chunks) == chunks[0][..ContextLimit]
  {
  }

  /** The prompt embeds the context and the question, each in full, at fixed places. */
  lemma PromptEmbeds(context: string, question: string)
    ensures var p, c := Prompt(context, question), |PromptHead|;
      && p[c .. c + |context|] == context
      && p[c + |context| + |QuestionMarker| .. c + |context| + |QuestionMarker| + |question|] == question
      && |p| == |PromptHead| + |context| + |QuestionMarker| + |question| + |PromptTail|
  {
  }

  /**
   * The chat model is called exactly when the question is non-empty, the store is not
   * empty, retrieval succeeded and returned at least one chunk; the prompt it gets holds
   * the budgeted context of the retrieved chunks and the question.
   */
  lemma ModelCalledIff(question: string, total: nat, retrieval: Retrieval, chat: string -> Reply)
    ensures var o := Respond(question, total, retrieval, chat);
      o.prompt.Some? <==> question != "" && total > 0 && retrieval.Retrieved? && Concat(retrieval.documents) != []
    ensures var o := Respond(question, total, retrieval, chat);
      o.prompt.Some? ==>
        var context := Context(Concat(retrieval.documents));
        && o.prompt.value == Prompt(context, question)
        && |context| <= ContextLimit
        && context == Join("\n", Concat(retrieval.documents))[..|context|]
  {
  }

  /**
   * The route: a non-empty question first makes sure the index is loaded, then is answered
   * against the store's count. The store changes only through that load, so a store that
   * already holds chunks is left as it is, whatever the retrieval and chat outcomes.
   */
  method Ask(store: Collection, src: Source, stepOk: (nat, nat) -> bool, request: Request,
             retrieval: Retrieval, chat: string -> Reply) returns (outcome: Outcome)
    requires QuestionOf(request) != "" && store.Count() == 0 ==> ListingEndsIfReached(src)
    modifies store
    ensures var question := QuestionOf(request);
      && (question == "" || old(store.Count()) != 0 ==> store.entries == old(store.entries))
      && (question != "" && old(store.Count()) == 0 ==> store.entries == Stored(map[], BuildAdds(src, stepOk)))
      && outcome == Respond(question, store.Count(), retrieval, chat)
    ensures QuestionOf(request) != "" && old(store.Count()) == 0 ==>
      (outcome.questionEncoded <==> BuildAdds(src, stepOk) != [])
    ensures QuestionOf(request) != "" && old(store.Count()) == 0 && BuildAdds(src, stepOk) == [] ==>
      outcome.answer == NoDataAnswer
  {
    var question := QuestionOf(request);
    if question != "" {
      EnsureDataLoaded(store, src, stepOk);
      if old(store.Count()) == 0 {
        StoredFromEmpty(BuildAdds(src, stepOk));
      }
    }
    outcome := Respond(question, store.Count(), retrieval, chat);
  }
}
