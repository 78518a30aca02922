/**
 * Embedding acquisition with bounded retry and batching
 * (`callMontnetsEmbeddingAPIWithRetry`, `getMontnetsEmbeddings` and
 * `getMontnetsEmbedding` in vault-web-server/postapi/montnetsai.go).
 *
 * The upstream embedding service is scripted: `up(n, texts)` is its answer to
 * the n-th request made overall (counting from 0). Callers thread the number
 * of requests already made as `start`. The seconds slept are counted in a
 * ghost out-parameter.
 */
module Embeddings {
  import opened Outcomes

  type Vector = seq<real>

  /** The upstream service: its answer to request number n with the given input texts. */
  type Upstream = (nat, seq<string>) -> Result<seq<Vector>, string>

  /** A chunk of an ingested document; only its text is read here. */
  datatype Chunk = Chunk(text: string)

  /** The retry bound the batch and single-text callers pass. */
  const EmbedRetries: int := 3

  /** Seconds slept after each failed request. */
  const RetryDelaySeconds: nat := 5

  /** Go's runtime message when `res.Data[0]` is taken of an empty response. */
  const EmptyDataPanic: string := "runtime error: index out of range [0] with length 0"

  /** What one call of the retry function returned and how many requests it made. */
  datatype RetryOutcome = RetryOutcome(data: Option<seq<Vector>>, err: Option<string>, attempts: nat)

  /**
   * The retry loop from attempt `i` on, the last error seen being `lastErr`.
   * Exactly one of data and error is present once an attempt has been made.
   */
  function RetryLoop(up: Upstream, texts: seq<string>, start: nat, i: nat, maxRetries: int, lastErr: Option<string>)
    : (r: RetryOutcome)
    requires i > 0 ==> lastErr.Some?
    ensures (i > 0 || maxRetries > 0) ==> (r.data.Some? <==> r.err.None?)
    ensures i <= r.attempts
    decreases maxRetries - i, 1
  {
    if i >= maxRetries then RetryOutcome(None, lastErr, i) else Attempt(up, texts, start, i, maxRetries)
  }

  /** Attempt `i` (request `start + i`): its data ends the loop, its error goes on to the next attempt. */
  function Attempt(up: Upstream, texts: seq<string>, start: nat, i: nat, maxRetries: int): (r: RetryOutcome)
    requires i < maxRetries
    ensures r.data.Some? <==> r.err.None?
    ensures i < r.attempts
    decreases maxRetries - i, 0
  {
    match up(start + i, texts)
      case Ok(d) => RetryOutcome(Some(d), None, i + 1)
      case Err(e) => RetryLoop(up, texts, start, i + 1, maxRetries, Some(e))
  }

  /** callMontnetsEmbeddingAPIWithRetry as a value: Go starts with a nil error. */
  function Retry(up: Upstream, texts: seq<string>, start: nat, maxRetries: int): (r: RetryOutcome)
    ensures maxRetries > 0 ==> (r.data.Some? <==> r.err.None?)
  {
    RetryLoop(up, texts, start, 0, maxRetries, None)
  }

  /** Number of sleeps a retry outcome stands for: one after every failed request. */
  function Failures(r: RetryOutcome): nat {
    if r.data.Some? && r.attempts > 0 then r.attempts - 1 else r.attempts
  }

  /**
   * callMontnetsEmbeddingAPIWithRetry: up to `maxRetries` requests with the same
   * texts; returns on the first success and sleeps `RetryDelaySeconds` after every failure.
   */
  method CallEmbeddingWithRetry(up: Upstream, texts: seq<string>, start: nat, maxRetries: int)
    returns (data: Option<seq<Vector>>, err: Option<string>, attempts: nat, ghost slept: nat)
    ensures RetryOutcome(data, err, attempts) == Retry(up, texts, start, maxRetries)
    ensures slept == RetryDelaySeconds * Failures(RetryOutcome(data, err, attempts))
  {
    err := None;
    slept := 0;
    var i := 0;
    while i < maxRetries
      invariant 0 <= i && (maxRetries > 0 ==> i <= maxRetries)
      invariant i > 0 ==> err.Some?
      invariant RetryLoop(up, texts, start, i, maxRetries, err) == Retry(up, texts, start, maxRetries)
      invariant slept == RetryDelaySeconds * i
    {
      var res := up(start + i, texts);
      if res.Ok? {
        return Some(res.value), None, i + 1, slept;
      }
      err := Some(res.error);
      slept := slept + RetryDelaySeconds;
      i := i + 1;
    }
    data := None;
    attempts := i;
  }

  /** The retry loop's outcome, stated without recursion (over absolute request numbers). */
  lemma {:induction false} RetryLoopOutcome(up: Upstream, texts: seq<string>, start: nat, i: nat, maxRetries: int,
                                            lastErr: Option<string>)
    requires i > 0 ==> lastErr.Some?
    ensures var r := RetryLoop(up, texts, start, i, maxRetries, lastErr);
      && r.attempts <= (if i < maxRetries then maxRetries else i)
      && (forall n: nat :: start + i <= n < start + r.attempts && (r.data.None? || n < start + r.attempts - 1)
            ==> up(n, texts).Err?)
      && (r.data.Some? ==> i < r.attempts && up(start + r.attempts - 1, texts) == Ok(r.data.value))
      && (r.data.None? ==> r.attempts == (if i < maxRetries then maxRetries else i))
      && (r.data.None? && i < maxRetries ==> r.err.Some? && up(start + maxRetries - 1, texts) == Err(r.err.value))
      && (i >= maxRetries ==> r == RetryOutcome(None, lastErr, i))
    decreases maxRetries - i
  {
    if i < maxRetries && up(start + i, texts).Err? {
      RetryLoopOutcome(up, texts, start, i + 1, maxRetries, Some(up(start + i, texts).error));
    }
  }

  /**
   * The retry contract: at most `maxRetries` requests; success is the answer of
   * the last request made, every earlier one having failed; when all fail, the
   * error is the last request's; with `maxRetries <= 0` no request is made and
   * both results are nil.
   */
  lemma RetryContract(up: Upstream, texts: seq<string>, start: nat, maxRetries: int)
    ensures var r := Retry(up, texts, start, maxRetries);
      && r.attempts <= (if maxRetries > 0 then maxRetries else 0)
      && (forall n: nat :: start <= n < start + r.attempts - 1 ==> up(n, texts).Err?)
      && (r.data.Some? ==> r.attempts > 0 && up(start + r.attempts - 1, texts) == Ok(r.data.value) && r.err == None)
      && (r.data.None? && maxRetries > 0 ==>
            && r.attempts == maxRetries
            && (forall n: nat :: start <= n < start + maxRetries ==> up(n, texts).Err?)
            && r.err.Some? && up(start + maxRetries - 1, texts) == Err(r.err.value))
      && (maxRetries <= 0 ==> r == RetryOutcome(None, None, 0))
  {
    RetryLoopOutcome(up, texts, start, 0, maxRetries, None);
  }

  /** An upstream that always fails is asked exactly three times, with a sleep after each failure. */
  lemma AlwaysFailingUpstream(up: Upstream, texts: seq<string>, start: nat)
    requires forall n: nat :: up(n, texts).Err?
    ensures var r := Retry(up, texts, start, EmbedRetries);
      && r.data == None && r.attempts == 3 && Failures(r) == 3
      && r.err == Some(up(start + 2, texts).error)
  {
    RetryContract(up, texts, start, EmbedRetries);
  }

  /** The texts of the chunks, in order. */
  function TextsOf(chunks: seq<Chunk>): (texts: seq<string>)
    ensures |texts| == |chunks|
  {
    seq(|chunks|, k requires 0 <= k < |chunks| => chunks[k].text)
  }

  function Min(a: int, b: int): int {
    if a < b then a else b
  }

  /** The groups `texts[i..min(n, i + size)]`, `texts[i + size..]`, ... the batch loop submits from index `i`. */
  function GroupsFrom(texts: seq<string>, size: int, i: nat): seq<seq<string>>
    requires size > 0 || i >= |texts|
    decreases |texts| - i
  {
    if i >= |texts| then []
    else [texts[i..Min(|texts|, i + size)]] + GroupsFrom(texts, size, i + size)
  }

  /** The consecutive groups of at most `size` texts the batch function submits. */
  function Groups(texts: seq<string>, size: int): seq<seq<string>>
    requires size > 0 || |texts| == 0
  {
    GroupsFrom(texts, size, 0)
  }

  /** Concatenation of a sequence of sequences. */
  function Flatten<T>(parts: seq<seq<T>>): seq<T> {
    if |parts| == 0 then [] else parts[0] + Flatten(parts[1..])
  }

  lemma {:induction false} FlattenAppend<T>(a: seq<seq<T>>, b: seq<seq<T>>)
    ensures Flatten(a + b) == Flatten(a) + Flatten(b)
  {
    if |a| > 0 {
      assert (a + b)[0] == a[0];
      assert (a + b)[1..] == a[1..] + b;
      FlattenAppend(a[1..], b);
    } else {
      assert a + b == b;
    }
  }

  /** Every group from `i` is non-empty and holds at most `size` texts. */
  lemma {:induction false} GroupsFromSizes(texts: seq<string>, size: int, i: nat)
    requires size > 0
    ensures forall g :: g in GroupsFrom(texts, size, i) ==> 0 < |g| <= size
    decreases |texts| - i
  {
    if i < |texts| {
      var rest := GroupsFrom(texts, size, i + size);
      GroupsFromSizes(texts, size, i + size);
      assert GroupsFrom(texts, size, i) == [texts[i..Min(|texts|, i + size)]] + rest;
    }
  }

  /** The groups from `i` concatenate back to the texts from `i`. */
  lemma {:induction false} GroupsFromFlatten(texts: seq<string>, size: int, i: nat)
    requires size > 0
    requires i <= |texts|
    ensures Flatten(GroupsFrom(texts, size, i)) == texts[i..]
    decreases |texts| - i
  {
    if i < |texts| {
      var e := Min(|texts|, i + size);
      var gs := GroupsFrom(texts, size, i);
      assert gs[0] == texts[i..e] && gs[1..] == GroupsFrom(texts, size, i + size);
      if i + size < |texts| {
        GroupsFromFlatten(texts, size, i + size);
        assert texts[i..] == texts[i..e] + texts[i + size..];
      } else {
        assert texts[i..] == texts[i..e];
      }
    }
  }

  /** The number of groups from `i` is the ceiling of the remaining count divided by `size`. */
  lemma {:induction false} GroupsFromCount(texts: seq<string>, size: int, i: nat)
    requires size > 0
    requires i <= |texts|
    ensures var m := |GroupsFrom(texts, size, i)|;
      (m - 1) * size < |texts| - i <= m * size
    decreases |texts| - i
  {
    if i < |texts| {
      var m' := |GroupsFrom(texts, size, i + size)|;
      if i + size < |texts| {
        GroupsFromCount(texts, size, i + size);
      }
      assert (m' + 1) * size == m' * size + size;
    }
  }

  /**
   * The batching contract: ceil(n / size) consecutive non-empty groups of at
   * most `size` texts that concatenate to the input in order; none when n = 0.
   */
  lemma GroupsShape(texts: seq<string>, size: int)
    requires size > 0
    ensures var gs := Groups(texts, size);
      && (forall g :: g in gs ==> 0 < |g| <= size)
      && Flatten(gs) == texts
      && (|gs| - 1) * size < |texts| <= |gs| * size
      && (|texts| == 0 <==> gs == [])
  {
    GroupsFromSizes(texts, size, 0);
    GroupsFromFlatten(texts, size, 0);
    GroupsFromCount(texts, size, 0);
  }

  /** Total requests made by a sequence of retry calls. */
  function AttemptsOf(outs: seq<RetryOutcome>): nat {
    if |outs| == 0 then 0 else AttemptsOf(outs[..|outs| - 1]) + outs[|outs| - 1].attempts
  }

  /** Every retry call in `outs` obtained embeddings. */
  predicate AllSucceeded(outs: seq<RetryOutcome>) {
    forall j :: 0 <= j < |outs| ==> outs[j].data.Some?
  }

  /** The embeddings returned by a sequence of retry calls, concatenated in call order. */
  function EmbeddingsOf(outs: seq<RetryOutcome>): seq<Vector> {
    if |outs| == 0 then []
    else EmbeddingsOf(outs[..|outs| - 1]) + (if outs[|outs| - 1].data.Some? then outs[|outs| - 1].data.value else [])
  }

  /**
   * The batch's retry calls, one per submitted group: the call for group j is
   * the retry of that group's texts, starting at the request number where the
   * calls before it left off.
   */
  ghost predicate RetriedInOrder(up: Upstream, groups: seq<seq<string>>, start: nat, outs: seq<RetryOutcome>)
    decreases |outs|, 1
  {
    && |outs| <= |groups|
    && (|outs| > 0 ==> LastRetried(up, groups, start, outs))
  }

  /** The record without its last call is in order, and that call retried the next group. */
  ghost predicate LastRetried(up: Upstream, groups: seq<seq<string>>, start: nat, outs: seq<RetryOutcome>)
    requires 0 < |outs| <= |groups|
    decreases |outs|, 0
  {
    var n := |outs| - 1;
    && RetriedInOrder(up, groups, start, outs[..n])
    && outs[n] == Retry(up, groups[n], start + AttemptsOf(outs[..n]), EmbedRetries)
  }

  /** The record read at one position: call j retried group j from where calls 0..j-1 left off. */
  lemma {:induction false} RetriedInOrderAt(up: Upstream, groups: seq<seq<string>>, start: nat, outs: seq<RetryOutcome>, j: nat)
    requires RetriedInOrder(up, groups, start, outs)
    requires j < |outs|
    ensures j < |groups| && outs[j] == Retry(up, groups[j], start + AttemptsOf(outs[..j]), EmbedRetries)
    decreases |outs|
  {
    var n := |outs| - 1;
    if j < n {
      RetriedInOrderAt(up, groups, start, outs[..n], j);
      assert outs[..n][..j] == outs[..j];
    }
  }

  /**
   * One step of the batch loop: the group starting at `i` is the next one, and
   * its retry call, made from where the previous calls left off, extends the
   * record in order.
   */
  lemma BatchStep(up: Upstream, all: seq<string>, size: int, groups: seq<seq<string>>, start: nat,
                  outs: seq<RetryOutcome>, i: nat, out: RetryOutcome)
    requires size > 0 && i < |all|
    requires RetriedInOrder(up, groups, start, outs)
    requires groups == groups[..|outs|] + GroupsFrom(all, size, i)
    requires out == Retry(up, all[i..Min(|all|, i + size)], start + AttemptsOf(outs), EmbedRetries)
    ensures RetriedInOrder(up, groups, start, outs + [out])
    ensures groups == groups[..|outs| + 1] + GroupsFrom(all, size, i + size)
    ensures AttemptsOf(outs + [out]) == AttemptsOf(outs) + out.attempts
    ensures AllSucceeded(outs) && out.data.Some? ==> AllSucceeded(outs + [out])
    ensures out.data.Some? ==> EmbeddingsOf(outs + [out]) == EmbeddingsOf(outs) + out.data.value
    ensures out.data.None? ==> !AllSucceeded(outs + [out]) && (outs + [out])[..|outs|] == outs
  {
    var rest := GroupsFrom(all, size, i);
    assert rest[0] == all[i..Min(|all|, i + size)];
    assert groups[..|outs| + 1] == groups[..|outs|] + [rest[0]];
    var outs' := outs + [out];
    assert outs'[..|outs|] == outs;
    assert |outs'| - 1 == |outs|;
    assert outs'[|outs|] == out;
  }

  /**
   * The batch loop's state before the group starting at `i`: the groups so far
   * were retried in order and every one of them succeeded.
   */
  ghost predicate BatchProgress(up: Upstream, chunks: seq<Chunk>, size: int, start: nat,
                                outs: seq<RetryOutcome>, i: nat)
    requires size > 0 || |chunks| == 0
  {
    var groups := Groups(TextsOf(chunks), size);
    && RetriedInOrder(up, groups, start, outs)
    && groups == groups[..|outs|] + GroupsFrom(TextsOf(chunks), size, i)
    && AllSucceeded(outs)
  }

  /** The batch stopped at its last retry call, which failed; every call before it succeeded. */
  ghost predicate BatchFailed(up: Upstream, chunks: seq<Chunk>, size: int, start: nat, outs: seq<RetryOutcome>)
    requires size > 0 || |chunks| == 0
  {
    && RetriedInOrder(up, Groups(TextsOf(chunks), size), start, outs)
    && |outs| > 0
    && AllSucceeded(outs[..|outs| - 1])
    && outs[|outs| - 1].data.None?
  }

  /**
   * One pass of the batch loop: the texts of the group starting at `i` go
   * through the retry function, numbered from where the earlier groups left
   * off, and the outcome extends the record in order.
   */
  method EmbedGroup(up: Upstream, chunks: seq<Chunk>, size: int, start: nat,
                    ghost outs: seq<RetryOutcome>, attempts: nat, i: nat)
    returns (data: Option<seq<Vector>>, err: Option<string>, made: nat, ghost out: RetryOutcome)
    requires size > 0 && i < |chunks|
    requires BatchProgress(up, chunks, size, start, outs, i)
    requires attempts == AttemptsOf(outs)
    ensures out == RetryOutcome(data, err, made)
    ensures data.Some? <==> err.None?
    ensures AttemptsOf(outs + [out]) == attempts + made
    ensures data.Some? ==>
      && BatchProgress(up, chunks, size, start, outs + [out], i + size)
      && EmbeddingsOf(outs + [out]) == EmbeddingsOf(outs) + data.value
    ensures data.None? ==> BatchFailed(up, chunks, size, start, outs + [out])
  {
    var texts := GroupTexts(chunks, i, Min(|chunks|, i + size));
    ghost var slept;
    data, err, made, slept := CallEmbeddingWithRetry(up, texts, start + attempts, EmbedRetries);
    out := RetryOutcome(data, err, made);
    BatchStep(up, TextsOf(chunks), size, Groups(TextsOf(chunks), size), start, outs, i, out);
  }

  /** When the groups from `i` are exhausted, every group has been submitted. */
  lemma BatchDone(up: Upstream, chunks: seq<Chunk>, size: int, start: nat, outs: seq<RetryOutcome>, i: nat)
    requires size > 0 || |chunks| == 0
    requires i >= |chunks|
    requires BatchProgress(up, chunks, size, start, outs, i)
    ensures |outs| == |Groups(TextsOf(chunks), size)|
  {
  }

  /** The texts of `chunks[lo..hi]`, gathered in order. */
  method GroupTexts(chunks: seq<Chunk>, lo: nat, hi: nat) returns (texts: seq<string>)
    requires lo <= hi <= |chunks|
    ensures texts == TextsOf(chunks)[lo..hi]
  {
    texts := [];
    for c := lo to hi
      invariant texts == TextsOf(chunks)[lo..c]
    {
      texts := texts + [chunks[c].text];
    }
  }

  /**
   * getMontnetsEmbeddings: submits consecutive groups of `batchSize` chunk texts
   * through the retry function and concatenates the answers in group order; the
   * first group whose retries all fail ends the call with that error, and no
   * later group is submitted.
   */
  method GetEmbeddings(up: Upstream, chunks: seq<Chunk>, batchSize: int, start: nat)
    returns (result: Result<seq<Vector>, string>, attempts: nat, ghost outs: seq<RetryOutcome>)
    requires batchSize > 0 || |chunks| == 0
    ensures RetriedInOrder(up, Groups(TextsOf(chunks), batchSize), start, outs)
    ensures result.Ok? <==> |outs| == |Groups(TextsOf(chunks), batchSize)| && AllSucceeded(outs)
    ensures result.Ok? ==> result.value == EmbeddingsOf(outs)
    ensures result.Err? ==>
      |outs| > 0 && AllSucceeded(outs[..|outs| - 1]) && outs[|outs| - 1].err == Some(result.error)
    ensures attempts == AttemptsOf(outs)
  {
    var embeddings: seq<Vector> := [];
    attempts, outs := 0, [];
    var i := 0;
    while i < |chunks|
      invariant BatchProgress(up, chunks, batchSize, start, outs, i)
      invariant embeddings == EmbeddingsOf(outs)
      invariant attempts == AttemptsOf(outs)
      decreases |chunks| - i
    {
      var data, err, made, out := EmbedGroup(up, chunks, batchSize, start, outs, attempts, i);
      if err.Some? {
        return Err(err.value), attempts + made, outs + [out];
      }
      embeddings := embeddings + data.value;
      attempts := attempts + made;
      outs := outs + [out];
      i := i + batchSize;
    }
    BatchDone(up, chunks, batchSize, start, outs, i);
    result := Ok(embeddings);
  }

  /** `embed` applied to each text, in order: one vector per text. */
  function EmbedAll(embed: string -> Vector, texts: seq<string>): (vs: seq<Vector>)
    ensures |vs| == |texts|
  {
    seq(|texts|, k requires 0 <= k < |texts| => embed(texts[k]))
  }

  /**
   * Embeddings stay aligned with their chunks: if every call's answer is `embed`
   * applied to its group's texts, the concatenation of the answers is `embed`
   * applied to the texts of all groups in order.
   */
  lemma {:induction false} EmbeddingsAlignWithTexts(outs: seq<RetryOutcome>, groups: seq<seq<string>>, embed: string -> Vector)
    requires |outs| == |groups|
    requires forall j :: 0 <= j < |outs| ==> outs[j].data == Some(EmbedAll(embed, groups[j]))
    ensures EmbeddingsOf(outs) == EmbedAll(embed, Flatten(groups))
  {
    if |outs| > 0 {
      var n := |outs| - 1;
      EmbeddingsAlignWithTexts(outs[..n], groups[..n], embed);
      assert groups == groups[..n] + [groups[n]];
      FlattenAppend(groups[..n], [groups[n]]);
      assert Flatten([groups[n]]) == groups[n];
    }
  }

  /** An upstream that answers every request at once with `embed` applied to each input text. */
  ghost predicate Healthy(up: Upstream, embed: string -> Vector) {
    forall n: nat, texts: seq<string> :: up(n, texts) == Ok(EmbedAll(embed, texts))
  }

  /** With a healthy upstream, each retry call in the record succeeds on its first request. */
  lemma {:induction false} HealthyRetries(up: Upstream, embed: string -> Vector, groups: seq<seq<string>>,
                                          start: nat, outs: seq<RetryOutcome>)
    requires Healthy(up, embed)
    requires RetriedInOrder(up, groups, start, outs)
    ensures forall j :: 0 <= j < |outs| ==> outs[j] == RetryOutcome(Some(EmbedAll(embed, groups[j])), None, 1)
    ensures AttemptsOf(outs) == |outs|
    decreases |outs|
  {
    if |outs| > 0 {
      var n := |outs| - 1;
      assert LastRetried(up, groups, start, outs);
      HealthyRetries(up, embed, groups, start, outs[..n]);
      var s := start + AttemptsOf(outs[..n]);
      assert up(s, groups[n]) == Ok(EmbedAll(embed, groups[n]));
      assert Attempt(up, groups[n], s, 0, EmbedRetries) == RetryOutcome(Some(EmbedAll(embed, groups[n])), None, 1);
      forall j | 0 <= j < n
        ensures outs[j] == RetryOutcome(Some(EmbedAll(embed, groups[j])), None, 1)
      {
        assert outs[j] == outs[..n][j];
      }
    }
  }

  /**
   * With a healthy upstream the batch never fails: every group is answered on
   * its first request (so no sleep), and once all groups are submitted the
   * embeddings are `embed` of every chunk text, in chunk order.
   */
  lemma HealthyBatch(up: Upstream, embed: string -> Vector, chunks: seq<Chunk>, size: int, start: nat,
                     outs: seq<RetryOutcome>)
    requires size > 0
    requires Healthy(up, embed)
    requires RetriedInOrder(up, Groups(TextsOf(chunks), size), start, outs)
    ensures AllSucceeded(outs) && AttemptsOf(outs) == |outs|
    ensures forall j :: 0 <= j < |outs| ==> outs[j].err == None && Failures(outs[j]) == 0
    ensures |outs| == |Groups(TextsOf(chunks), size)| ==> EmbeddingsOf(outs) == EmbedAll(embed, TextsOf(chunks))
  {
    var groups := Groups(TextsOf(chunks), size);
    HealthyRetries(up, embed, groups, start, outs);
    if |outs| == |groups| {
      EmbeddingsAlignWithTexts(outs, groups, embed);
      GroupsShape(TextsOf(chunks), size);
    }
  }

  /**
   * getMontnetsEmbedding: one text through the retry function; the first vector
   * of a successful answer, the retry error otherwise.
   */
  method GetEmbedding(up: Upstream, text: string, start: nat) returns (result: Result<Vector, string>, attempts: nat)
    ensures var r := Retry(up, [text], start, EmbedRetries);
      && attempts == r.attempts
      && (r.err.Some? ==> result == Err(r.err.value))
      && (r.err.None? && |r.data.value| > 0 ==> result == Ok(r.data.value[0]))
      && (r.err.None? && |r.data.value| == 0 ==> result == Err(EmptyDataPanic))
  {
    var data, err, made, slept := CallEmbeddingWithRetry(up, [text], start, EmbedRetries);
    attempts := made;
    if err.Some? {
      return Err(err.value), attempts;
    }
    if |data.value| == 0 {
      return Err(EmptyDataPanic), attempts;
    }
    result := Ok(data.value[0]);
  }
}
