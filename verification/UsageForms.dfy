/** The spellings of token counts usage.go knows, provider by provider. */
module UsageForms {
  import opened Options
  import opened Usage

  // ----- what each count is read from

  function FirstNonZero(ns: seq<int>): int {
    if ns == [] then 0 else if ns[0] != 0 then ns[0] else FirstNonZero(ns[1..])
  }

  lemma FirstStep(n: int, ns: seq<int>)
    ensures FirstNonZero([n] + ns) == OrElse(n, FirstNonZero(ns))
  {
    assert ([n] + ns)[1..] == ns;
  }

  lemma FirstOfThree(a: int, b: int, c: int)
    ensures FirstNonZero([a, b, c]) == OrElse(a, OrElse(b, c))
  {
    FirstStep(c, []);
    FirstStep(b, [c]);
    FirstStep(a, [b, c]);
    assert [c] + [] == [c] && [b] + [c] == [b, c] && [a] + [b, c] == [a, b, c];
  }

  lemma FirstOfFive(a: int, b: int, c: int, d: int, e: int)
    ensures FirstNonZero([a, b, c, d, e]) == OrElse(a, OrElse(b, OrElse(c, OrElse(d, e))))
  {
    FirstOfThree(c, d, e);
    FirstStep(b, [c, d, e]);
    FirstStep(a, [b, c, d, e]);
    assert [b] + [c, d, e] == [b, c, d, e] && [a] + [b, c, d, e] == [a, b, c, d, e];
  }

  /** The tokens written to a cache: the total, or the two lifetimes added up. */
  function Written(f: Reported): int {
    FirstNonZero([f.cacheCreationInputTokens, match f.cacheCreation case None => 0 case Some(c) => c.0 + c.1, 0])
  }

  /** Where the output, the cached and the written tokens are looked for, in order. */
  lemma CountsExactly(f: Reported)
    ensures AsTokenUsage(f).output == FirstNonZero([f.completionTokens, f.outputTokens, f.evalCount])
    ensures AsTokenUsage(f).cacheRead ==
      FirstNonZero([f.cacheReadInputTokens, f.promptCacheHitTokens, f.promptDetailsCached.GetOr(0),
                    f.inputDetailsCached.GetOr(0), f.cachedTokens])
    ensures AsTokenUsage(f).cacheCreation == Written(f)
  {
    FirstOfThree(f.completionTokens, f.outputTokens, f.evalCount);
    FirstOfThree(f.cacheCreationInputTokens, match f.cacheCreation case None => 0 case Some(c) => c.0 + c.1, 0);
    FirstOfFive(f.cacheReadInputTokens, f.promptCacheHitTokens, f.promptDetailsCached.GetOr(0),
                f.inputDetailsCached.GetOr(0), f.cachedTokens);
  }

  /** And the input: prompt tokens, or input tokens with the cached and written ones on top, or
      evaluated ones, image tokens added; without any of these, what the total leaves. */
  lemma InputExactly(f: Reported)
    ensures var named := FirstNonZero([f.promptTokens, f.inputTokens + f.cacheReadInputTokens + Written(f), f.promptEvalCount]);
      AsTokenUsage(f).input ==
        if named + f.imageTokens != 0 || f.totalTokens <= 0 then named + f.imageTokens
        else Max0(f.totalTokens - AsTokenUsage(f).output)
  {
    FirstOfThree(f.cacheCreationInputTokens, match f.cacheCreation case None => 0 case Some(c) => c.0 + c.1, 0);
    FirstOfThree(f.promptTokens, f.inputTokens + f.cacheReadInputTokens + Written(f), f.promptEvalCount);
  }

  /** A nested object that only names its model has Uncached made up again from what is there. */
  lemma NamedNestedRefills(u: Counts, model: string, f: Reported)
    requires model != "" && u.input != 0 && AsTokenUsage(f) == ZERO
    ensures NestedMerged(u, Some(Nested(model, Some(f)))) ==
      u.(model := model, uncached := Max0(u.input - u.cacheRead - u.cacheCreation))
  {
    NamedRefills(u, model);
  }

  lemma NamedRefills(u: Counts, model: string)
    requires model != "" && u.input != 0
    ensures MergedUsage(u.(model := model), ZERO.(model := model)) ==
      u.(model := model, uncached := Max0(u.input - u.cacheRead - u.cacheCreation))
  {
  }

  // ----- provider by provider

  const NOTHING_REPORTED := Reported(0, 0, 0, 0, 0, 0, 0, 0, 0, 0, 0, 0, 0, None, None, None)

  /** OpenAI chat: prompt_tokens counts the cached ones. */
  lemma ChatForm(prompt: int, cached: int, completion: int, total: int)
    requires prompt > 0 && cached >= 0
    ensures AsTokenUsage(NOTHING_REPORTED.(promptTokens := prompt, promptDetailsCached := Some(cached),
                                           completionTokens := completion, totalTokens := total))
         == Counts(prompt, completion, cached, 0, if cached > prompt then 0 else prompt - cached, "")
  {
  }

  /** OpenAI Responses: so does input_tokens. */
  lemma ResponsesForm(input: int, cached: int, output: int, total: int)
    requires input > 0 && cached >= 0
    ensures AsTokenUsage(NOTHING_REPORTED.(inputTokens := input, inputDetailsCached := Some(cached),
                                           outputTokens := output, totalTokens := total))
         == Counts(input, output, cached, 0, if cached > input then 0 else input - cached, "")
  {
  }

  /** Anthropic: input_tokens leaves out what was read from a cache or written to one. */
  lemma MessagesForm(input: int, read: int, written: int, output: int)
    requires input >= 0 && read >= 0 && written >= 0 && input + read + written > 0
    ensures AsTokenUsage(NOTHING_REPORTED.(inputTokens := input, cacheReadInputTokens := read,
                                           cacheCreationInputTokens := written, outputTokens := output))
         == Counts(input + read + written, output, read, written, input, "")
  {
  }

  /** DeepSeek: cache hits and misses. */
  lemma HitMissForm(prompt: int, hit: int, miss: int, completion: int)
    requires prompt > 0 && miss != 0
    ensures AsTokenUsage(NOTHING_REPORTED.(promptTokens := prompt, promptCacheHitTokens := hit,
                                           promptCacheMissTokens := miss, completionTokens := completion))
         == Counts(prompt, completion, hit, 0, miss, "")
  {
  }

  /** Ollama. */
  lemma EvalForm(prompt: int, completion: int)
    requires prompt > 0
    ensures AsTokenUsage(NOTHING_REPORTED.(promptEvalCount := prompt, evalCount := completion))
         == Counts(prompt, completion, 0, 0, prompt, "")
  {
  }

  /** Embeddings that report a total only, and those with image tokens beside the others. */
  lemma EmbeddingForms(total: int, input: int, image: int)
    requires total > 0 && input >= 0 && image > 0
    ensures AsTokenUsage(NOTHING_REPORTED.(totalTokens := total)) == Counts(total, 0, 0, 0, total, "")
    ensures AsTokenUsage(NOTHING_REPORTED.(inputTokens := input, imageTokens := image)) ==
      Counts(input + image, 0, 0, 0, input + image, "")
  {
  }
}
