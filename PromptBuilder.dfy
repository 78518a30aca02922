/**
 * The token-budgeted prompt builder `buildMontnetsPrompt`
 * (vault-web-server/postapi/montnetsai.go).
 *
 * The tiktoken encoding is abstracted as a token-count function; failing to
 * obtain the encoding is the `Err` case of the `encoding` parameter.
 */
module PromptBuilder {
  import opened Outcomes

  /** Counts the tokens of a text under the model's encoding. */
  type Tokenizer = string -> nat

  const TokenLimit: nat := 3750
  const PromptStart: string := "Answer the question based on the context below.\n\nContext:\n"
  const Separator: string := "\n\n---\n\n"

  /** The closing template; the question is substituted verbatim. */
  function PromptEnd(question: string): string {
    "\n\n问题: " + question + "\n使用中文回答:"
  }

  /** Go's `strings.Join`. */
  function Join(parts: seq<string>, sep: string): string {
    if |parts| == 0 then ""
    else if |parts| == 1 then parts[0]
    else parts[0] + sep + Join(parts[1..], sep)
  }

  /** Sum of the token counts of `texts`. */
  function TokenSum(tokens: Tokenizer, texts: seq<string>): nat {
    if |texts| == 0 then 0 else TokenSum(tokens, texts[..|texts| - 1]) + tokens(texts[|texts| - 1])
  }

  /** The running token count after the question and the first `n` contexts. */
  function Running(tokens: Tokenizer, question: string, contexts: seq<string>, n: nat): nat
    requires n <= |contexts|
  {
    tokens(question) + TokenSum(tokens, contexts[..n])
  }

  /** Adding the context at index `j` brings the running count to the limit. */
  predicate ReachesLimitAt(tokens: Tokenizer, question: string, contexts: seq<string>, j: nat)
    requires j < |contexts|
  {
    Running(tokens, question, contexts, j + 1) >= TokenLimit
  }

  /**
   * Scanning from index `i`, the index of the first context whose tokens bring
   * the running count to the limit, or `|contexts|` when none does.
   */
  function CutFrom(tokens: Tokenizer, question: string, contexts: seq<string>, i: nat): (k: nat)
    requires i <= |contexts|
    ensures i <= k <= |contexts|
    decreases |contexts| - i
  {
    if i == |contexts| then i
    else if ReachesLimitAt(tokens, question, contexts, i) then i
    else CutFrom(tokens, question, contexts, i + 1)
  }

  /** How many contexts (a prefix) make it into the prompt. */
  function Included(tokens: Tokenizer, question: string, contexts: seq<string>): (k: nat)
    ensures k <= |contexts|
  {
    CutFrom(tokens, question, contexts, 0)
  }

  /** The prompt the builder produces once the encoding is available. */
  function Built(tokens: Tokenizer, question: string, contexts: seq<string>): (prompt: string)
    ensures prompt == "" <==> |contexts| == 0
    ensures |contexts| > 0 ==> |prompt| >= |PromptStart| && prompt[..|PromptStart|] == PromptStart
  {
    if |contexts| == 0 then ""
    else PromptStart + Join(contexts[..Included(tokens, question, contexts)], Separator) + PromptEnd(question)
  }

  /**
   * buildMontnetsPrompt: adds each context's token count to the question's and
   * stops at the first context that brings the total to the limit.
   */
  method BuildPrompt(contexts: seq<string>, question: string, encoding: Result<Tokenizer, string>)
    returns (prompt: string, err: Option<string>)
    ensures encoding.Err? ==> prompt == "" && err == Some("getEncoding: " + encoding.error)
    ensures encoding.Ok? ==> err == None && prompt == Built(encoding.value, question, contexts)
  {
    if encoding.Err? {
      return "", Some("getEncoding: " + encoding.error);
    }
    var tokens := encoding.value;
    err := None;
    var current := tokens(question);
    prompt := "";
    var i := 0;
    while i < |contexts|
      invariant 0 <= i <= |contexts|
      invariant current == Running(tokens, question, contexts, i)
      invariant CutFrom(tokens, question, contexts, i) == Included(tokens, question, contexts)
      invariant prompt == if 0 < i == |contexts| then PromptStart + Join(contexts, Separator) + PromptEnd(question) else ""
    {
      assert contexts[..i + 1][..i] == contexts[..i];
      current := current + tokens(contexts[i]);
      if current >= TokenLimit {
        prompt := PromptStart + Join(contexts[..i], Separator) + PromptEnd(question);
        break;
      } else if i == |contexts| - 1 {
        prompt := PromptStart + Join(contexts, Separator) + PromptEnd(question);
      }
      i := i + 1;
    }
    assert contexts[..|contexts|] == contexts;
  }

  /** Token sums grow with the prefix taken. */
  lemma {:induction false} TokenSumMonotone(tokens: Tokenizer, texts: seq<string>, m: nat, n: nat)
    requires m <= n <= |texts|
    ensures TokenSum(tokens, texts[..m]) <= TokenSum(tokens, texts[..n])
    decreases n - m
  {
    if m < n {
      TokenSumMonotone(tokens, texts, m, n - 1);
      assert texts[..n][..n - 1] == texts[..n - 1];
    }
  }

  /** What `CutFrom` scans: every position before the cut stays under the limit, the cut itself reaches it. */
  lemma {:induction false} CutFromIsFirstReach(tokens: Tokenizer, question: string, contexts: seq<string>, i: nat)
    requires i <= |contexts|
    ensures var k := CutFrom(tokens, question, contexts, i);
      && (forall j :: i <= j < k ==> !ReachesLimitAt(tokens, question, contexts, j))
      && (k < |contexts| ==> ReachesLimitAt(tokens, question, contexts, k))
    decreases |contexts| - i
  {
    if i < |contexts| && !ReachesLimitAt(tokens, question, contexts, i) {
      CutFromIsFirstReach(tokens, question, contexts, i + 1);
    }
  }

  /**
   * The included count is the least index at which adding the next context
   * reaches the limit (or all contexts): any count with both properties is it.
   */
  lemma IncludedIsUnique(tokens: Tokenizer, question: string, contexts: seq<string>, k: nat)
    requires k <= |contexts|
    requires forall j :: 0 <= j < k ==> !ReachesLimitAt(tokens, question, contexts, j)
    requires k < |contexts| ==> ReachesLimitAt(tokens, question, contexts, k)
    ensures k == Included(tokens, question, contexts)
  {
    CutFromIsFirstReach(tokens, question, contexts, 0);
  }

  /** Budget bound: the question plus the included contexts stay strictly under the limit. */
  lemma IncludedWithinBudget(tokens: Tokenizer, question: string, contexts: seq<string>)
    ensures var k := Included(tokens, question, contexts);
      k > 0 ==> tokens(question) + TokenSum(tokens, contexts[..k]) < TokenLimit
  {
    var k := Included(tokens, question, contexts);
    CutFromIsFirstReach(tokens, question, contexts, 0);
    if k > 0 {
      assert !ReachesLimitAt(tokens, question, contexts, k - 1);
    }
  }

  /** Maximality: the first context left out would have brought the total to the limit. */
  lemma IncludedIsMaximal(tokens: Tokenizer, question: string, contexts: seq<string>)
    ensures var k := Included(tokens, question, contexts);
      k < |contexts| ==> tokens(question) + TokenSum(tokens, contexts[..k + 1]) >= TokenLimit
  {
    CutFromIsFirstReach(tokens, question, contexts, 0);
  }

  /** If the question and all contexts together stay under the limit, every context is included. */
  lemma AllIncludedUnderBudget(tokens: Tokenizer, question: string, contexts: seq<string>)
    requires tokens(question) + TokenSum(tokens, contexts) < TokenLimit
    ensures Included(tokens, question, contexts) == |contexts|
  {
    var k := Included(tokens, question, contexts);
    CutFromIsFirstReach(tokens, question, contexts, 0);
    assert contexts[..|contexts|] == contexts;
    if k < |contexts| {
      assert ReachesLimitAt(tokens, question, contexts, k);
      TokenSumMonotone(tokens, contexts, k + 1, |contexts|);
      assert false;
    }
  }

  /** Under budget, the prompt carries every context, in order, between the fixed preamble and closing. */
  lemma AllIncludedPrompt(tokens: Tokenizer, question: string, contexts: seq<string>)
    requires tokens(question) + TokenSum(tokens, contexts) < TokenLimit
    requires |contexts| > 0
    ensures Built(tokens, question, contexts) == PromptStart + Join(contexts, Separator) + PromptEnd(question)
  {
    AllIncludedUnderBudget(tokens, question, contexts);
    assert contexts[..|contexts|] == contexts;
  }

  /**
   * Running out of budget is not an error: a question that alone reaches the
   * limit still yields the frame of a prompt, with no context in it.
   */
  lemma OversizedQuestionKeepsFrame(tokens: Tokenizer, question: string, contexts: seq<string>)
    requires tokens(question) >= TokenLimit
    requires |contexts| > 0
    ensures Included(tokens, question, contexts) == 0
    ensures Built(tokens, question, contexts) == PromptStart + PromptEnd(question)
  {
    assert ReachesLimitAt(tokens, question, contexts, 0);
  }
}
