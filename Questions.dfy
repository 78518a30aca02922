/**
 * The question/answer request handler `QuestionHandler`
 * (vault-web-server/postapi/questions.go).
 *
 * The services the handler reaches are parameters: the embedding call, the
 * vector database's `Retrieve`, the tokenizer the prompt builder obtains, and
 * the chat-completion call. Every call made to the embedding, retrieval and
 * completion services is recorded, in order, in the returned `calls`.
 */
module Questions {
  import opened Outcomes
  import PromptBuilder
  import Embeddings

  /** The namespace every retrieval uses, whatever the request carried. */
  const Namespace: string := "8078d199-aac0-452d-8487-698fc10d3c86"
  const TopK: int := 4
  /**
   * The relevance threshold. Scores are float32 and Go converts the constant
   * 0.8 to float32 before comparing, so the threshold is float32(0.8), which
   * is 13421773 / 2^24; scores are the exact values of their float32s.
   */
  const Threshold: real := 13421773.0 / 16777216.0
  const BypassMarker: string := "//"
  const ChineseDirective: string := " 使用中文回答"
  const SystemInstruction: string := "You are a helpful assistant answering questions based on the context provided."
  const MaxTokens: int := 512
  const InternalServerError: int := 500

  /** The parsed request body: question, model name, namespace and optional API key. */
  datatype QuestionForm = QuestionForm(question: string, model: string, uuid: string, apiKey: string)

  /** A retrieved passage returned with the answer. */
  datatype Context = Context(text: string, title: string)

  /** The JSON body of a successful answer. */
  datatype Answer = Answer(answer: string, context: seq<Context>, tokens: int)

  /** A vector-database match: the fields the handler reads. */
  datatype QueryMatch = QueryMatch(score: real, metadata: map<string, string>)

  datatype ChatModel = GPT3Dot5Turbo | GPT3TextDavinci003

  /** The OpenAI client held by the handler context. */
  datatype Client = Client(apiKey: string)

  /** The completion's text and its token usage. */
  datatype Completion = Completion(text: string, tokens: int)

  /** A call to an external service, with the arguments it was given. */
  datatype Call =
    | EmbedCall(client: Client, text: string)
    | RetrieveCall(vector: Embeddings.Vector, topK: int, namespace: string)
    | CompleteCall(client: Client, prompt: string, model: ChatModel, instructions: string, maxTokens: int)

  /** What the handler writes back: the answer, or an HTTP error status and message. */
  datatype Response = Answered(answer: Answer) | Failed(status: int, message: string)

  /** The handler context's collaborators. */
  datatype Services = Services(
    client: Client,
    embed: (Client, string) -> Result<Embeddings.Vector, string>,
    retrieve: (Embeddings.Vector, int, string) -> Result<seq<QueryMatch>, string>,
    encoding: Result<PromptBuilder.Tokenizer, string>,
    complete: (Client, string, ChatModel, string, int) -> Result<Completion, string>)

  /** `strings.HasPrefix(question, "//")`. */
  predicate IsBypass(question: string) {
    |question| >= |BypassMarker| && question[..|BypassMarker|] == BypassMarker
  }

  /** The matches that pass the strict relevance filter, in retrieval order. */
  function Relevant(matches: seq<QueryMatch>): (r: seq<QueryMatch>)
    ensures |r| <= |matches|
  {
    if |matches| == 0 then []
    else (if matches[0].score > Threshold then [matches[0]] else []) + Relevant(matches[1..])
  }

  /** Every retrieved score, in retrieval order. */
  function Scores(matches: seq<QueryMatch>): seq<real> {
    seq(|matches|, k requires 0 <= k < |matches| => matches[k].score)
  }

  /** A Go map lookup: the empty string for a missing key. */
  function Lookup(metadata: map<string, string>, key: string): string {
    if key in metadata then metadata[key] else ""
  }

  /** The context a match contributes: its metadata's `text` and `title`. */
  function ContextOf(m: QueryMatch): Context {
    Context(Lookup(m.metadata, "text"), Lookup(m.metadata, "title"))
  }

  function ContextsOf(matches: seq<QueryMatch>): seq<Context> {
    seq(|matches|, k requires 0 <= k < |matches| => ContextOf(matches[k]))
  }

  function TextsOf(contexts: seq<Context>): seq<string> {
    seq(|contexts|, k requires 0 <= k < |contexts| => contexts[k].text)
  }

  /** The model requested by name; any name other than "GPT Davinci" gets the default. */
  function ModelFor(name: string): (m: ChatModel)
    ensures m == GPT3TextDavinci003 <==> name == "GPT Davinci"
  {
    if name == "GPT Davinci" then GPT3TextDavinci003 else GPT3Dot5Turbo
  }

  /** The prompt sent after building: the question with a language directive when the builder gave nothing. */
  function PromptSent(built: string, question: string): string {
    if built == "" then question + ChineseDirective else built
  }

  /** The response for a completion outcome, with the contexts kept. */
  function Finish(completion: Result<Completion, string>, contexts: seq<Context>): Response {
    match completion
    case Ok(c) => Answered(Answer(c.text, contexts, c.tokens))
    case Err(e) => Failed(InternalServerError, e)
  }

  /** The completion call for a prompt: fixed instruction and token cap, model chosen by name. */
  function CompletionFor(client: Client, prompt: string, modelName: string): Call {
    CompleteCall(client, prompt, ModelFor(modelName), SystemInstruction, MaxTokens)
  }

  /** The outcome of that completion call. */
  function Completed(services: Services, prompt: string, modelName: string): Result<Completion, string> {
    services.complete(services.client, prompt, ModelFor(modelName), SystemInstruction, MaxTokens)
  }

  /**
   * QuestionHandler. A question starting with "//" is sent, without those two
   * characters, straight to completion. Otherwise: embed the question, retrieve
   * the top 4 matches from the fixed namespace, keep those scored strictly
   * above the threshold, build the prompt from their texts (falling back to
   * the question plus a language directive when the prompt is empty) and
   * complete it. Any failing step ends the request with status 500.
   */
  method QuestionHandler(request: QuestionForm, services: Services)
    returns (response: Response, calls: seq<Call>, matchList: seq<real>)
    // The "//" bypass: one completion call on the stripped question, no context.
    ensures IsBypass(request.question) ==>
      var prompt := request.question[|BypassMarker|..];
      && matchList == []
      && calls == [CompletionFor(services.client, prompt, request.model)]
      && response == Finish(Completed(services, prompt, request.model), [])
    // Otherwise the question is embedded first; its failure aborts.
    ensures !IsBypass(request.question) ==>
      var embedded := services.embed(services.client, request.question);
      && |calls| >= 1 && calls[0] == EmbedCall(services.client, request.question)
      && (embedded.Err? ==> calls == [calls[0]] && matchList == [] && response == Failed(InternalServerError, embedded.error))
    // Retrieval: top 4 from the fixed namespace; its failure aborts.
    ensures !IsBypass(request.question) && services.embed(services.client, request.question).Ok? ==>
      var vector := services.embed(services.client, request.question).value;
      var retrieved := services.retrieve(vector, TopK, Namespace);
      && |calls| >= 2 && calls[1] == RetrieveCall(vector, TopK, Namespace)
      && (retrieved.Err? ==> calls == calls[..2] && matchList == [] && response == Failed(InternalServerError, retrieved.error))
    // Filtering, contexts, prompt building and completion.
    ensures !IsBypass(request.question) && services.embed(services.client, request.question).Ok? ==>
      var retrieved := services.retrieve(services.embed(services.client, request.question).value, TopK, Namespace);
      retrieved.Ok? ==>
        var contexts := ContextsOf(Relevant(retrieved.value));
        && matchList == Scores(retrieved.value)
        && (services.encoding.Err? ==>
              calls == calls[..2] && response == Failed(InternalServerError, "getEncoding: " + services.encoding.error))
        && (services.encoding.Ok? ==>
              var prompt := PromptSent(PromptBuilder.Built(services.encoding.value, request.question, TextsOf(contexts)),
                                       request.question);
              && calls == calls[..2] + [CompletionFor(services.client, prompt, request.model)]
              && response == Finish(Completed(services, prompt, request.model), contexts))
  {
    var form := request.(uuid := Namespace);
    // A custom API key is only logged: the context's client is used either way.
    var clientToUse := services.client;
    var promptMake := "";
    var contextAll: seq<Context> := [];
    matchList := [];
    calls := [];
    if IsBypass(form.question) {
      form := form.(question := form.question[|BypassMarker|..]);
      promptMake := form.question;
    } else {
      calls := calls + [EmbedCall(clientToUse, form.question)];
      var questionEmbedding := services.embed(clientToUse, form.question);
      if questionEmbedding.Err? {
        return Failed(InternalServerError, questionEmbedding.error), calls, matchList;
      }
      calls := calls + [RetrieveCall(questionEmbedding.value, TopK, form.uuid)];
      var retrieved := services.retrieve(questionEmbedding.value, TopK, form.uuid);
      if retrieved.Err? {
        return Failed(InternalServerError, retrieved.error), calls, matchList;
      }
      var filteredMatches;
      filteredMatches, matchList := FilterMatches(retrieved.value);
      var contexts, contextTexts := ExtractContexts(filteredMatches);
      var prompt, err := PromptBuilder.BuildPrompt(contextTexts, form.question, services.encoding);
      if prompt == "" {
        prompt := form.question + ChineseDirective;
      }
      promptMake := prompt;
      contextAll := contexts;
      if err.Some? {
        return Failed(InternalServerError, err.value), calls, matchList;
      }
    }

    var model := GPT3Dot5Turbo;
    if form.model == "GPT Davinci" {
      model := GPT3TextDavinci003;
    }
    calls := calls + [CompleteCall(clientToUse, promptMake, model, SystemInstruction, MaxTokens)];
    var completion := services.complete(clientToUse, promptMake, model, SystemInstruction, MaxTokens);
    if completion.Err? {
      return Failed(InternalServerError, completion.error), calls, matchList;
    }
    response := Answered(Answer(completion.value.text, contextAll, completion.value.tokens));
  }

  /**
   * The scan over the retrieved matches: records every score and keeps the
   * matches scored strictly above the threshold, both in retrieval order.
   */
  method FilterMatches(matches: seq<QueryMatch>) returns (filteredMatches: seq<QueryMatch>, matchList: seq<real>)
    ensures filteredMatches == Relevant(matches)
    ensures matchList == Scores(matches)
  {
    filteredMatches, matchList := [], [];
    for i := 0 to |matches|
      invariant |matchList| == i && forall k :: 0 <= k < i ==> matchList[k] == matches[k].score
      invariant filteredMatches == Relevant(matches[..i])
    {
      matchList := matchList + [matches[i].score];
      if matches[i].score > Threshold {
        filteredMatches := filteredMatches + [matches[i]];
      }
      RelevantAppend(matches[..i], [matches[i]]);
      assert matches[..i + 1] == matches[..i] + [matches[i]];
    }
    assert matches[..|matches|] == matches;
  }

  /**
   * Fills one context per kept match, by index, from its metadata's `text` and
   * `title`, then the list of their texts handed to the prompt builder.
   */
  method ExtractContexts(filteredMatches: seq<QueryMatch>) returns (contextAll: seq<Context>, texts: seq<string>)
    ensures contextAll == ContextsOf(filteredMatches)
    ensures texts == TextsOf(contextAll)
  {
    var contexts := new Context[|filteredMatches|];
    for i := 0 to |filteredMatches|
      invariant forall k :: 0 <= k < i ==> contexts[k] == ContextOf(filteredMatches[k])
    {
      contexts[i] := Context(Lookup(filteredMatches[i].metadata, "text"), Lookup(filteredMatches[i].metadata, "title"));
    }
    var contextTexts := new string[contexts.Length];
    for i := 0 to contexts.Length
      modifies contextTexts
      invariant forall k :: 0 <= k < i ==> contextTexts[k] == contexts[k].text
    {
      contextTexts[i] := contexts[i].text;
    }
    contextAll, texts := contexts[..], contextTexts[..];
  }

  /** Filtering distributes over concatenation: the order of the retrieval is kept. */
  lemma {:induction false} RelevantAppend(a: seq<QueryMatch>, b: seq<QueryMatch>)
    ensures Relevant(a + b) == Relevant(a) + Relevant(b)
  {
    if |a| == 0 {
      assert a + b == b;
    } else {
      assert (a + b)[0] == a[0];
      assert (a + b)[1..] == a[1..] + b;
      RelevantAppend(a[1..], b);
    }
  }

  /** A match is kept exactly when it was retrieved and scores strictly above the threshold. */
  lemma {:induction false} RelevantMembership(matches: seq<QueryMatch>, m: QueryMatch)
    ensures m in Relevant(matches) <==> m in matches && m.score > Threshold
  {
    if |matches| > 0 {
      RelevantMembership(matches[1..], m);
      assert matches == [matches[0]] + matches[1..];
    }
  }

  /** Matches all above the threshold are all kept, in order; matches all at or below it are all dropped. */
  lemma {:induction false} RelevantExtremes(matches: seq<QueryMatch>)
    ensures (forall k :: 0 <= k < |matches| ==> matches[k].score > Threshold) ==> Relevant(matches) == matches
    ensures (forall k :: 0 <= k < |matches| ==> matches[k].score <= Threshold) ==> Relevant(matches) == []
  {
    if |matches| > 0 {
      RelevantExtremes(matches[1..]);
      assert forall k :: 1 <= k < |matches| ==> matches[1..][k - 1] == matches[k];
    }
  }

  /** The boundary: a match scored exactly at the threshold is dropped, one just above it kept. */
  lemma ThresholdIsStrict(m: QueryMatch, rest: seq<QueryMatch>)
    ensures m.score == Threshold ==> Relevant([m] + rest) == Relevant(rest)
    ensures m.score > Threshold ==> Relevant([m] + rest) == [m] + Relevant(rest)
  {
    RelevantAppend([m], rest);
  }

  /**
   * The fallback prompt is used exactly when no retrieved match passes the
   * filter; otherwise the built prompt goes out unchanged.
   */
  lemma FallbackExactlyWhenNothingRelevant(tokens: PromptBuilder.Tokenizer, question: string, matches: seq<QueryMatch>)
    ensures var built := PromptBuilder.Built(tokens, question, TextsOf(ContextsOf(Relevant(matches))));
      PromptSent(built, question) == if Relevant(matches) == [] then question + ChineseDirective else built
  {
  }

  /** With the encoding available, the prompt sent on the retrieval path is never empty. */
  lemma RetrievalPromptNonEmpty(tokens: PromptBuilder.Tokenizer, question: string, matches: seq<QueryMatch>)
    ensures PromptSent(PromptBuilder.Built(tokens, question, TextsOf(ContextsOf(Relevant(matches)))), question) != ""
  {
    assert |question + ChineseDirective| > 0;
  }
}
