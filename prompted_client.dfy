/** The prompt-fallback policy of the prompted LLM client
    (providers/prompted_llm_client.py): a system prompt comes from the prompt provider
    when it gives a non-blank one, and from the configured fallback otherwise, unless the
    client is strict, in which case every failure is raised. The client's fields are set
    once at construction, so the client is a value and its operations are functions. */
module PromptedClient {
  import opened Wrappers
  import opened Text
  import opened JsonValues
  import opened Contracts

  const NotConfigured := "Prompt provider is required but not configured"
  const EmptyPrompt := "Prompt provider returned empty prompt"

  /** `_DEFAULT_FALLBACK_PROMPT`. */
  const DefaultFallbackPrompt := "Извлеки согласно схемы и верни только JSON."

  datatype PromptedLlmClient = PromptedLlmClient(
    promptProvider: Option<PromptProvider>,
    generator: StructuredGenerator,
    fallbackPrompt: string,
    strictPromptProvider: bool)
  {
    /** `_resolve_prompt`. A strict client raises on every failure (re-raising the
        provider's own exception); a lenient one never raises and falls back. A prompt
        that is not the fallback is the provider's non-blank answer, verbatim. */
    function ResolvePrompt(promptName: string, promptVersion: string): (r: Result<string, Exception>)
      ensures r.Err? ==> strictPromptProvider
      ensures promptProvider.None? ==>
                r == if strictPromptProvider then Err(RuntimeError(NotConfigured)) else Ok(fallbackPrompt)
      ensures promptProvider.Some? && promptProvider.value(promptName, promptVersion).Err? ==>
                r == if strictPromptProvider then Err(promptProvider.value(promptName, promptVersion).error)
                     else Ok(fallbackPrompt)
      ensures r.Ok? && r.value != fallbackPrompt ==>
                promptProvider.Some? && promptProvider.value(promptName, promptVersion) == Ok(Str(r.value))
                && !AllSpace(r.value)
    {
      match promptProvider
      case None =>
        if strictPromptProvider then Err(RuntimeError(NotConfigured)) else Ok(fallbackPrompt)
      case Some(provider) =>
        match provider(promptName, promptVersion)
        case Err(e) =>
          if strictPromptProvider then Err(e) else Ok(fallbackPrompt)
        case Ok(prompt) =>
          StripEmptyIffAllSpace(if prompt.Str? then prompt.s else "");
          if !prompt.Str? || Strip(prompt.s) == [] then
            if strictPromptProvider then Err(RuntimeError(EmptyPrompt)) else Ok(fallbackPrompt)
          else Ok(prompt.s)
    }

    /** `extract_structured`: the resolved prompt and the caller's text, schema and
        temperature go to the generator, whose answer comes back unchanged; a prompt
        failure is raised before the generator is called. */
    function ExtractStructured(promptName: string, promptVersion: string, inputText: string,
                               outputSchema: map<string, Json>, temperature: real)
      : (r: Result<map<string, Json>, Exception>)
      ensures ResolvePrompt(promptName, promptVersion).Err? ==> r == Err(ResolvePrompt(promptName, promptVersion).error)
      ensures ResolvePrompt(promptName, promptVersion).Ok? ==>
                r == generator(GenerateRequest(ResolvePrompt(promptName, promptVersion).value, inputText, outputSchema, temperature))
    {
      match ResolvePrompt(promptName, promptVersion)
      case Err(e) => Err(e)
      case Ok(systemPrompt) => generator(GenerateRequest(systemPrompt, inputText, outputSchema, temperature))
    }
  }

  /** A provider answer that is a non-blank string is used as it is. */
  lemma ProviderPromptIsUsed(client: PromptedLlmClient, promptName: string, promptVersion: string, prompt: string)
    requires client.promptProvider.Some?
    requires client.promptProvider.value(promptName, promptVersion) == Ok(Str(prompt))
    requires !AllSpace(prompt)
    ensures client.ResolvePrompt(promptName, promptVersion) == Ok(prompt)
  {
    StripEmptyIffAllSpace(prompt);
  }

  /** A blank or non-string answer raises in strict mode and falls back otherwise. */
  lemma BlankPromptFallsBack(client: PromptedLlmClient, promptName: string, promptVersion: string)
    requires client.promptProvider.Some?
    requires var answer := client.promptProvider.value(promptName, promptVersion);
      answer.Ok? && (!answer.value.Str? || AllSpace(answer.value.s))
    ensures client.ResolvePrompt(promptName, promptVersion) ==
      if client.strictPromptProvider then Err(RuntimeError(EmptyPrompt)) else Ok(client.fallbackPrompt)
  {
    var answer := client.promptProvider.value(promptName, promptVersion);
    if answer.value.Str? {
      StripEmptyIffAllSpace(answer.value.s);
    }
  }

  /** A lenient client always obtains a prompt, so its generator is always called. */
  lemma LenientNeverRaises(client: PromptedLlmClient, promptName: string, promptVersion: string, inputText: string,
                           outputSchema: map<string, Json>, temperature: real)
    requires !client.strictPromptProvider
    ensures client.ResolvePrompt(promptName, promptVersion).Ok?
    ensures exists systemPrompt :: client.ExtractStructured(promptName, promptVersion, inputText, outputSchema, temperature)
              == client.generator(GenerateRequest(systemPrompt, inputText, outputSchema, temperature))
  {
    var systemPrompt := client.ResolvePrompt(promptName, promptVersion).value;
    assert client.ExtractStructured(promptName, promptVersion, inputText, outputSchema, temperature)
      == client.generator(GenerateRequest(systemPrompt, inputText, outputSchema, temperature));
  }

  /** The provider of the composition test: it answers "prompt:{name}:{version}". */
  function StubPrompt(promptName: string, promptVersion: string): Result<Json, Exception> {
    Ok(Str("prompt:" + promptName + ":" + promptVersion))
  }

  /** With that provider, "medlabs.extract" version "v1" resolves to
      "prompt:medlabs.extract:v1", in either mode. */
  lemma StubProviderPrompt(generator: StructuredGenerator, fallbackPrompt: string, strict: bool)
    ensures PromptedLlmClient(Some(StubPrompt), generator, fallbackPrompt, strict).ResolvePrompt("medlabs.extract", "v1")
            == Ok("prompt:medlabs.extract:v1")
  {
    var prompt := "prompt:medlabs.extract:v1";
    assert !IsSpace(prompt[0]);
    assert "prompt:" + "medlabs.extract" + ":" + "v1" == prompt;
    ProviderPromptIsUsed(PromptedLlmClient(Some(StubPrompt), generator, fallbackPrompt, strict), "medlabs.extract", "v1", prompt);
  }

  /** The client as an `LLMClient`: a request's prompt name and version select the system
      prompt, and its text, schema and temperature go to the generator. */
  function AsLlmClient(client: PromptedLlmClient): (c: LlmClient)
    ensures forall request: StructuredRequest ::
              (c(request) == client.ExtractStructured(request.promptName, request.promptVersion, request.inputText,
                                                      request.outputSchema, request.temperature))
  {
    (request: StructuredRequest) => client.ExtractStructured(request.promptName, request.promptVersion, request.inputText,
                                        request.outputSchema, request.temperature)
  }
}
