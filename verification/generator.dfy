/** `CodeGenerator.generate_code` and `generate`: strip the input, size the
    token budget, classify, render the prompt, call the model, and either
    return the decoded text (which `generate_code` writes to the output
    file) or raise. The model and its tokenizer are parameters. */
module Generator {
  import opened Results
  import opened PyStr
  import opened Prompt
  import opened Templates

  /** The constant in `min(num_tokens_input + 8000, 8000)`. */
  const TokenCap: nat := 8000

  /** The model library's `generate` followed by `decode`: given the prompt
      and the `max_length` bound (prompt tokens plus new tokens), the decoded
      first output sequence, or the message of the exception it raised. */
  type Model = (string, nat) -> Result<string, string>

  /** The tokenizer, reduced to the number of token ids it gives a text. */
  type TokenCount = string -> nat

  /** The `ValueError`s that `generate_code` can raise. */
  datatype Error =
    | GenerationFailed(cause: string)
      // raised by `generate` when the model call or decoding fails
    | PromptFailed(style: Style, body: string, inner: Error)
      // raised by a named-style method around the error from `generate`,
      // naming the signature, comment or docstring it used

  /** `max_new_tokens = min(num_tokens_input + 8000, 8000)`. A token count
      is never negative, so the minimum is always the second argument: the
      budget is the cap, whatever the input's length. */
  function MaxNewTokens(inputTokens: nat): (r: nat)
    ensures r == TokenCap
  {
    var computed := inputTokens + TokenCap;
    if TokenCap < computed then TokenCap else computed
  }

  /** `generate`: encode the text, run the model with
      `max_length = max_new_tokens + len(prompt tokens)`, decode; a model
      failure is re-raised as a `ValueError` with its message kept. */
  function Generate(model: Model, tokens: TokenCount, text: string, maxNewTokens: nat): (r: Result<string, Error>)
    ensures r.Success? <==> model(text, maxNewTokens + tokens(text)).Success?
    ensures r.Success? ==> r.value == model(text, maxNewTokens + tokens(text)).value
    ensures r.Failure? ==> r.error == GenerationFailed(model(text, maxNewTokens + tokens(text)).error)
  {
    match model(text, maxNewTokens + tokens(text))
    case Success(out) => Success(out)
    case Failure(message) => Failure(GenerationFailed(message))
  }

  /** `prompt_methods[style](text, max_new_tokens)`: generate from the
      rendered prompt; the three named-style methods wrap a failure in an
      error naming the body they used, fill-in-the-middle lets it through. */
  function RunPromptMethod(model: Model, tokens: TokenCount, style: Style, text: string, maxNewTokens: nat): (r: Result<string, Error>)
    ensures
      var prompt := Render(style, text);
      var reply := model(prompt, maxNewTokens + tokens(prompt));
      && (r.Success? <==> reply.Success?)
      && (r.Success? ==> r.value == reply.value)
      && (r.Failure? && style == FillInTheMiddle ==> r.error == GenerationFailed(reply.error))
      && (r.Failure? && style != FillInTheMiddle ==>
            r.error == PromptFailed(style, Body(style, text), GenerationFailed(reply.error)))
  {
    var out := Generate(model, tokens, Render(style, text), maxNewTokens);
    if style == FillInTheMiddle || out.Success? then out
    else Failure(PromptFailed(style, Body(style, text), out.error))
  }

  /** `generate_code` up to the file write: the text that is written to the
      output file, or the error raised before the file is opened. The model
      is called once, on the prompt the classified style renders from the
      stripped input, with `max_length` the cap plus the prompt's own token
      count; its output is returned unchanged. */
  function GenerateCode(model: Model, tokens: TokenCount, input: string): (r: Result<string, Error>)
    ensures
      var text := Strip(input);
      var style := Classify(text);
      var prompt := Render(style, text);
      var reply := model(prompt, TokenCap + tokens(prompt));
      && (r.Success? <==> reply.Success?)
      && (r.Success? ==> r.value == reply.value)
      && (r.Failure? && style == FillInTheMiddle ==> r.error == GenerationFailed(reply.error))
      && (r.Failure? && style != FillInTheMiddle ==>
            r.error == PromptFailed(style, Body(style, text), GenerationFailed(reply.error)))
  {
    var text := Strip(input);
    var maxNewTokens := MaxNewTokens(tokens(text));
    assert maxNewTokens == TokenCap;
    var style := Classify(text);
    RunPromptMethod(model, tokens, style, text, maxNewTokens)
  }

  /** Surrounding whitespace never changes what is generated. */
  lemma GenerateCodeIgnoresWhitespace(model: Model, tokens: TokenCount, input: string)
    ensures GenerateCode(model, tokens, Strip(input)) == GenerateCode(model, tokens, input)
  {
    StripIdempotent(input);
  }

  /** The token count of the input (line 56) has no effect on the result:
      two tokenizers that agree on the rendered prompt generate alike, even
      when they disagree about the input itself. */
  lemma InputTokenCountIrrelevant(model: Model, tokens1: TokenCount, tokens2: TokenCount, input: string)
    requires
      var text := Strip(input);
      tokens1(Render(Classify(text), text)) == tokens2(Render(Classify(text), text))
    ensures GenerateCode(model, tokens1, input) == GenerateCode(model, tokens2, input)
  {
    var text := Strip(input);
    GenerateCodeAtCap(model, tokens1, input);
    GenerateCodeAtCap(model, tokens2, input);
    PromptTokensOnly(model, tokens1, tokens2, Classify(text), text);
  }

  /** Whatever the input's token count, the prompt method runs with the cap. */
  lemma GenerateCodeAtCap(model: Model, tokens: TokenCount, input: string)
    ensures GenerateCode(model, tokens, input)
         == RunPromptMethod(model, tokens, Classify(Strip(input)), Strip(input), TokenCap)
  {
  }

  /** A prompt method sees the tokenizer only through the prompt's token count. */
  lemma PromptTokensOnly(model: Model, tokens1: TokenCount, tokens2: TokenCount, style: Style, text: string)
    requires tokens1(Render(style, text)) == tokens2(Render(style, text))
    ensures RunPromptMethod(model, tokens1, style, text, TokenCap)
         == RunPromptMethod(model, tokens2, style, text, TokenCap)
  {
    var prompt := Render(style, text);
    var reply := model(prompt, TokenCap + tokens1(prompt));
    assert reply == model(prompt, TokenCap + tokens2(prompt));
    var r1 := RunPromptMethod(model, tokens1, style, text, TokenCap);
    var r2 := RunPromptMethod(model, tokens2, style, text, TokenCap);
    if reply.Success? {
      assert r1 == Success(reply.value) == r2;
    } else {
      assert r1.Failure? && r2.Failure? && r1.error == r2.error;
    }
  }

  /** A fill-in-the-middle input reaches the model exactly as stripped. */
  lemma FillInTheMiddlePassesInput(model: Model, tokens: TokenCount, input: string)
    requires Classify(input) == FillInTheMiddle
    ensures GenerateCode(model, tokens, input)
         == Generate(model, tokens, Strip(input), TokenCap)
  {
    ClassifyIgnoresWhitespace(input);
  }
}
