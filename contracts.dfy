/** The collaborator protocols of the pipeline (contracts.py). Each is a Python protocol
    with one method; here each is a function type, and a call that raises gives `Err`. */
module Contracts {
  import opened Wrappers
  import opened JsonValues

  /** The keyword arguments of `LLMClient.extract_structured`. */
  datatype StructuredRequest = StructuredRequest(
    promptName: string,
    promptVersion: string,
    inputText: string,
    outputSchema: map<string, Json>,
    temperature: real)

  /** `LLMClient.extract_structured`: the structured payload, or the exception raised. */
  type LlmClient = StructuredRequest -> Result<map<string, Json>, Exception>

  /** `PromptProvider.get_prompt(prompt_name=, prompt_version=)`: whatever the provider
      returns (any Python value, although the protocol promises a string), or the
      exception it raises. */
  type PromptProvider = (string, string) -> Result<Json, Exception>

  /** The keyword arguments of `StructuredGenerator.generate_structured`. */
  datatype GenerateRequest = GenerateRequest(
    systemPrompt: string,
    inputText: string,
    outputSchema: map<string, Json>,
    temperature: real)

  /** `StructuredGenerator.generate_structured`: the model call. */
  type StructuredGenerator = GenerateRequest -> Result<map<string, Json>, Exception>
}
