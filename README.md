# vault-ai question answering path, modelled in Dafny

This project models the retrieval-augmented answer path of vault-ai's web server:

- **Questions** (`Questions.dfy`) covers `QuestionHandler` in `vault-web-server/postapi/questions.go`.
  - A question that starts with `//` goes, without those two characters, straight to the completion service.
  - Any other question goes through these steps: embed the question; retrieve the top 4 matches from one fixed namespace; keep the matches scored strictly above 0.8; build a prompt from their texts; complete that prompt.
  - If the prompt comes back empty, the question plus " 使用中文回答" is sent instead.
  - Every failure ends the request with status 500.
  - The handler is an imperative method. It returns the response, the list of scores it logs, and the calls it made to the embedding, retrieval and completion services.
- **PromptBuilder** (`PromptBuilder.dfy`) covers `buildMontnetsPrompt` in `vault-web-server/postapi/montnetsai.go`.
  - It is the token-budgeted prompt assembler: the question's token count is added to each context's in turn, and the prompt keeps the contexts before the first one that brings the total to 3750.
  - The loop is proved equal to the specification function `Built`. Lemmas characterise the number of contexts kept: it is the least index at which the limit is reached, the kept contexts stay under budget, and the next one would break the budget.
- **Embeddings** (`Embeddings.dfy`) covers three functions in `montnetsai.go`: `callMontnetsEmbeddingAPIWithRetry`, `getMontnetsEmbeddings` and `getMontnetsEmbedding`.
  - These are the bounded retry, the batching of chunk texts into groups of `batchSize`, and the single-text embedding.
  - The upstream embedding service is a function from a request number and the input texts to an answer. The request number is counted across the whole call. This makes "the third request failed" a statement the contracts can make.
  - The batch method returns a ghost record of its retry calls. The retry call for group j retried that group's texts, starting where the calls before it left off.
  - Lemmas prove that the groups concatenate back to the input, in order and with ceil(n / size) groups. With a healthy upstream, the embeddings line up with the chunks one for one.
- **Outcomes** (`Outcomes.dfy`) holds the `Option` and `Result` types.

Behaviours of the code worth noting:
- The namespace is always `8078d199-aac0-452d-8487-698fc10d3c86`, whatever the request carries (questions.go:32).
- A prompt-building error still sets the fallback prompt first, then aborts with status 500 (questions.go:93-104).
- The retry sleeps after every failed request, including the last one. An upstream that always fails therefore costs three requests and three five-second sleeps.
- The relevance threshold is `float32(0.8)`, that is 13421773 / 2^24, because Go compares the `float32` score with the constant converted to `float32`.

## Model

| member | source | states |
|---|---|---|
| Questions.QuestionHandler | vault-web-server/postapi/questions.go:26-138 | The "//" bypass sends exactly one completion call on the stripped question, with no contexts and no scores. Otherwise the first call embeds the question, and its failure ends the request with status 500 and that error. The second call retrieves the top 4 from the fixed namespace, and its failure gives status 500. Every retrieved score is listed in order. A missing encoding gives status 500 with "getEncoding: …" and no completion call. Otherwise the single completion call carries the built prompt (or the fallback), the model chosen by name, the fixed instruction and the 512-token cap. The response is that completion's text and tokens with the kept contexts, or status 500 with its error. |
| Questions.FilterMatches | vault-web-server/postapi/questions.go:73-79 | The scan keeps exactly `Relevant(matches)` in retrieval order and records every score in order. |
| Questions.ExtractContexts | vault-web-server/postapi/questions.go:81-92 | Each kept match gives a context with its metadata's `text` and `title` (empty when missing), by index. The texts handed to the builder are those contexts' texts, in the same order. |
| Questions.Relevant | vault-web-server/postapi/questions.go:73-79 | Filtering never lengthens the list. |
| Questions.RelevantAppend | vault-web-server/postapi/questions.go:74-79 | Filtering distributes over concatenation, so the kept matches stay in retrieval order. |
| Questions.RelevantMembership | vault-web-server/postapi/questions.go:76-78 | A match is kept if and only if it was retrieved and its score is strictly above the threshold. |
| Questions.RelevantExtremes | vault-web-server/postapi/questions.go:76-78 | All matches above the threshold are all kept, unchanged; all at or below it give nothing. |
| Questions.ThresholdIsStrict | vault-web-server/postapi/questions.go:76 | A match scored exactly at the threshold is dropped; one above it is kept in front of the rest. |
| Questions.ModelFor | vault-web-server/postapi/questions.go:107-110 | The Davinci model is chosen if and only if the model name is "GPT Davinci"; any other name gets the default. |
| Questions.FallbackExactlyWhenNothingRelevant | vault-web-server/postapi/questions.go:93-98 | The fallback prompt is sent exactly when no match passes the filter; otherwise the built prompt goes out unchanged. |
| Questions.RetrievalPromptNonEmpty | vault-web-server/postapi/questions.go:93-98 | With the encoding available, the prompt sent on the retrieval path is never empty. |
| PromptBuilder.BuildPrompt | vault-web-server/postapi/montnetsai.go:131-161 | Without an encoding: an empty prompt and the error "getEncoding: " followed by the cause. Otherwise no error, and the loop's prompt equals `Built`. |
| PromptBuilder.Built | vault-web-server/postapi/montnetsai.go:146-160 | The prompt is empty if and only if there are no contexts; otherwise it starts with the fixed preamble. |
| PromptBuilder.CutFrom | vault-web-server/postapi/montnetsai.go:147-157 | A scan from index i stops within the remaining contexts. |
| PromptBuilder.Included | vault-web-server/postapi/montnetsai.go:147-157 | The number of contexts kept is at most the number given. |
| PromptBuilder.CutFromIsFirstReach | vault-web-server/postapi/montnetsai.go:147-157 | No position before the cut reaches the limit; the cut position, when inside the list, does. |
| PromptBuilder.IncludedIsUnique | vault-web-server/postapi/montnetsai.go:147-157 | Any count whose earlier positions stay under the limit and whose own position reaches it (or is the end) is the count kept. |
| PromptBuilder.IncludedWithinBudget | vault-web-server/postapi/montnetsai.go:143-153 | The question plus the kept contexts stay strictly under 3750 tokens. |
| PromptBuilder.IncludedIsMaximal | vault-web-server/postapi/montnetsai.go:150-154 | Adding the first context left out would reach the limit. |
| PromptBuilder.TokenSumMonotone | vault-web-server/postapi/montnetsai.go:150 | Running token counts never decrease as more contexts are counted. |
| PromptBuilder.AllIncludedUnderBudget | vault-web-server/postapi/montnetsai.go:150-157 | If question and all contexts stay under the limit, every context is kept. |
| PromptBuilder.AllIncludedPrompt | vault-web-server/postapi/montnetsai.go:155-156 | Under budget the prompt is the preamble, all contexts joined by the separator, and the closing. |
| PromptBuilder.OversizedQuestionKeepsFrame | vault-web-server/postapi/montnetsai.go:143-154 | A question that alone reaches the limit keeps no context but still yields the preamble and closing, and no error. |
| Embeddings.RetryLoop | vault-web-server/postapi/montnetsai.go:76-89 | Once an attempt is made, exactly one of data and error is present; attempts never go backwards. |
| Embeddings.Attempt | vault-web-server/postapi/montnetsai.go:77-86 | After an attempt, exactly one of data and error is present, and the attempt is counted. |
| Embeddings.Retry | vault-web-server/postapi/montnetsai.go:71-90 | With a positive bound, exactly one of data and error is returned. |
| Embeddings.CallEmbeddingWithRetry | vault-web-server/postapi/montnetsai.go:71-90 | The loop returns the outcome of `Retry` and sleeps `RetryDelaySeconds` (5 seconds) after every failed request, the last one included. |
| Embeddings.RetryLoopOutcome | vault-web-server/postapi/montnetsai.go:76-89 | From attempt i on: at most the bound in attempts; all requests before the last failed. Data is the last request's answer. When all fail, the error is request `start + maxRetries - 1`'s error. |
| Embeddings.RetryContract | vault-web-server/postapi/montnetsai.go:71-90 | At most `maxRetries` requests. Success is the last request's answer, after failures only. When all fail, every request failed and the error is the last one's. With `maxRetries <= 0`: no request and both results nil. |
| Embeddings.AlwaysFailingUpstream | vault-web-server/postapi/montnetsai.go:76-89 | An always-failing upstream is asked exactly three times, sleeps three times, and reports the third error. |
| Embeddings.TextsOf | vault-web-server/postapi/montnetsai.go:99-102 | One text per chunk. |
| Embeddings.GroupTexts | vault-web-server/postapi/montnetsai.go:99-102 | The texts of `chunks[lo..hi]`, in order. |
| Embeddings.GroupsFromSizes | vault-web-server/postapi/montnetsai.go:96-97 | Every group is non-empty and holds at most `size` texts. |
| Embeddings.GroupsFromFlatten | vault-web-server/postapi/montnetsai.go:96-102 | The groups from index i concatenate back to the texts from i. |
| Embeddings.GroupsFromCount | vault-web-server/postapi/montnetsai.go:96-97 | There are ceil((n - i) / size) groups from index i. |
| Embeddings.GroupsShape | vault-web-server/postapi/montnetsai.go:96-102 | The groups are non-empty, at most `size` texts each, concatenate to the input, and number ceil(n / size); there are none if and only if the input is empty. |
| Embeddings.FlattenAppend | vault-web-server/postapi/montnetsai.go:116 | Appending group answers concatenates them. |
| Embeddings.RetriedInOrderAt | vault-web-server/postapi/montnetsai.go:96-109 | In the record, call j retried group j, starting at the request after those made by calls 0..j-1. |
| Embeddings.BatchStep | vault-web-server/postapi/montnetsai.go:96-116 | The next group's retry extends the record in order, advances the request count by its attempts, and appends its embeddings. A failure ends the run of successes. |
| Embeddings.EmbedGroup | vault-web-server/postapi/montnetsai.go:97-116 | One pass of the batch loop. On success the loop state moves to the next group with the answers appended. On failure the record ends with that failed call. |
| Embeddings.BatchDone | vault-web-server/postapi/montnetsai.go:96 | When the loop index passes the input, every group has been submitted. |
| Embeddings.GetEmbeddings | vault-web-server/postapi/montnetsai.go:92-120 | Groups are retried in order, each from where the previous left off. Ok if and only if every group was submitted and succeeded, and the value is their answers concatenated in group order. Err is the error of the first group whose retries all failed; every group before it succeeded, and no later group was submitted. The request count is the sum of the calls' attempts. |
| Embeddings.EmbeddingsAlignWithTexts | vault-web-server/postapi/montnetsai.go:111-116 | When each group's answer is one vector per text, the concatenated answers are one vector per input text, in order. |
| Embeddings.HealthyRetries | vault-web-server/postapi/montnetsai.go:76-84 | With a healthy upstream, every call in the record succeeds on its first request. |
| Embeddings.HealthyBatch | vault-web-server/postapi/montnetsai.go:92-120 | With a healthy upstream no group fails, none sleeps, each makes one request, and the finished batch's embeddings are those of every chunk text in chunk order. |
| Embeddings.GetEmbedding | vault-web-server/postapi/montnetsai.go:122-129 | A single-text retry with bound 3. Its error is returned as is; otherwise the first vector. An empty answer is Go's index-out-of-range panic. |

## Left out

- Logging, JSON encoding of the answer, and the `json.Marshal` failure path (questions.go:129-134) are left out; an `Answer` of strings and integers always marshals.
- Form parsing and validation (`FormParseVerify`) is not part of this model; the handler starts from a parsed `QuestionForm`.
- The custom API key only appears in a log line, and the handler's own client is used either way; the key is carried in `QuestionForm` and not otherwise read.
- `getEmbedding`, `buildPrompt`, `callOpenAI` and `callEmbeddingAPIWithRetry` are not part of this model. The handler's embedding and completion calls are parameters. The prompt builder it uses is `buildMontnetsPrompt`. The batch and single-text embedding functions use the retry loop of `callMontnetsEmbeddingAPIWithRetry`.
- The vector database backends behind `Retrieve` are not modelled; retrieval is a parameter.
- The tiktoken encoder is a token-count function, and `EncodingForModel` failing is the error case of a parameter; the byte-pair encoding itself is left out.
- The five-second sleeps are counted, not performed; the clock is left out.
- The embedding model name passed with each request is left out, since no branch depends on it.
- Scores and embedding components are `float32` in Go and exact reals here; rounding is not modelled. A score is taken to be the exact value of its `float32`.
- Go's `int` is unbounded here; request counts and token sums cannot overflow in the model.
- Strings are sequences of characters. Go slices the "//" prefix off by bytes, which agrees with this for the two ASCII characters removed.
- The concurrent use of shared clients by simultaneous requests is left out; each request is modelled as one sequential run.
- Embeddings.GetEmbeddings: requires `batchSize > 0` whenever there are chunks. With a zero batch size Go never advances past the first index: it submits an empty group again and again, returning the first error of a retry of that group and looping forever only while every such retry succeeds. With a negative batch size, `make([]string, 0, iEnd-i)` panics on its negative capacity. Neither path is modelled.
- Embeddings.GetEmbedding: Go panics when the answer holds no vectors. The model returns an error carrying Go's runtime message instead of ending the program.
