/**
 * The generation facade: a prompt built from the four story parameters, one
 * chat-completion request, and a parse-or-fallback rule that turns the
 * model's text into a story whether or not that text is JSON.
 *
 * The remote model is an oracle `api` from the request to the completion's
 * choices (None when the request fails), and `JSON.parse` an oracle `json`
 * from text to the three parsed fields (None when the text does not parse).
 */
module OpenAIService {
  import opened Common

  datatype StoryParams = StoryParams(mainCharacter: string, setting: string, theme: string, ageGroup: string)

  /** A generated story; `createdAt` is an opaque time value. */
  datatype GeneratedStory = GeneratedStory(title: string, content: string, summary: string, createdAt: nat)

  /** The three fields read off a successfully parsed JSON reply. */
  datatype StoryFields = StoryFields(title: string, content: string, summary: string)

  datatype ChatMessage = ChatMessage(role: string, content: string)
  datatype ChatRequest = ChatRequest(model: string, messages: seq<ChatMessage>, maxTokens: nat)

  const Model := "gpt-3.5-turbo"
  const MaxTokens := 500
  const SystemInstruction := "You are a creative storyteller who creates engaging stories for different age groups."
  const GenerationFailed := "Failed to generate story"
  const FallbackTitle := "Generated Story"
  const FallbackSummary := "A story was generated based on your parameters."

  /** The template's continuation-line indentation. */
  const Indent := "      "
  const PromptHeader := "Create a story with the following parameters:\n"
  const FormatInstruction :=
    Indent + "Format your response as JSON with the following structure:\n"
    + Indent + "{\n"
    + Indent + "  \"title\": \"Story title\",\n"
    + Indent + "  \"content\": \"Full story content with paragraphs\",\n"
    + Indent + "  \"summary\": \"A brief summary of the story\"\n"
    + Indent + "}"

  /** The blank separator line and the JSON-format instruction that close the prompt. */
  const PromptFooter := Indent + "\n" + FormatInstruction

  /** One labelled parameter line of the template. */
  function ParameterLine(caption: string, value: string): string {
    Indent + caption + value + "\n"
  }

  /** Where the pieces of a six-part concatenation sit in the whole. */
  lemma SixPartLayout(a: string, b: string, c: string, d: string, e: string, f: string)
    ensures StartsWith(a + b + c + d + e + f, a)
    ensures Contains(a + b + c + d + e + f, b)
    ensures Contains(a + b + c + d + e + f, c)
    ensures Contains(a + b + c + d + e + f, d)
    ensures Contains(a + b + c + d + e + f, e)
    ensures EndsWith(a + b + c + d + e + f, f)
  {
    var s := a + b + c + d + e + f;
    assert s == a + b + (c + d + e + f);
    ContainsMiddle(a, b, c + d + e + f);
    assert s == (a + b) + c + (d + e + f);
    ContainsMiddle(a + b, c, d + e + f);
    assert s == (a + b + c) + d + (e + f);
    ContainsMiddle(a + b + c, d, e + f);
    assert s == (a + b + c + d) + e + f;
    ContainsMiddle(a + b + c + d, e, f);
    assert s[..|a|] == a;
    assert s[|s| - |f|..] == f;
  }

  /**
   * `createPrompt`: opens with the header, holds every parameter verbatim on
   * its labelled, newline-terminated line, and ends with the JSON instruction.
   */
  function CreatePrompt(p: StoryParams): (prompt: string)
    ensures StartsWith(prompt, PromptHeader)
    ensures Contains(prompt, ParameterLine("- Main character: ", p.mainCharacter))
    ensures Contains(prompt, ParameterLine("- Setting: ", p.setting))
    ensures Contains(prompt, ParameterLine("- Theme: ", p.theme))
    ensures Contains(prompt, ParameterLine("- Age group: ", p.ageGroup))
    ensures EndsWith(prompt, PromptFooter)
  {
    var main := ParameterLine("- Main character: ", p.mainCharacter);
    var setting := ParameterLine("- Setting: ", p.setting);
    var theme := ParameterLine("- Theme: ", p.theme);
    var age := ParameterLine("- Age group: ", p.ageGroup);
    SixPartLayout(PromptHeader, main, setting, theme, age, PromptFooter);
    PromptHeader + main + setting + theme + age + PromptFooter
  }

  /** The request: system instruction first, then the prompt, with the fixed model and token cap. */
  function BuildRequest(p: StoryParams): (req: ChatRequest)
    ensures req.model == "gpt-3.5-turbo" && req.maxTokens == 500
    ensures |req.messages| == 2
    ensures req.messages[0] == ChatMessage("system", SystemInstruction)
    ensures req.messages[1] == ChatMessage("user", CreatePrompt(p))
  {
    ChatRequest(Model, [ChatMessage("system", SystemInstruction), ChatMessage("user", CreatePrompt(p))], MaxTokens)
  }

  /**
   * `parseResponse`: the parsed fields when the text parses, otherwise the
   * fallback story carrying the raw text; stamped with `now` either way.
   */
  function ParseResponse(text: string, json: string -> Option<StoryFields>, now: nat): (s: GeneratedStory)
    ensures s.createdAt == now
    ensures json(text).Some? ==>
      s.title == json(text).value.title && s.content == json(text).value.content
      && s.summary == json(text).value.summary
    ensures json(text).None? ==>
      s.title == FallbackTitle && s.content == text && s.summary == FallbackSummary
  {
    match json(text)
    case Some(fields) => GeneratedStory(fields.title, fields.content, fields.summary, now)
    case None => GeneratedStory(FallbackTitle, text, FallbackSummary, now)
  }

  /**
   * `generateStory`: a failed request, or a completion without a first
   * choice, rejects with "Failed to generate story"; otherwise the first
   * choice's text is parsed and the call resolves.
   */
  function GenerateStory(p: StoryParams, api: ChatRequest -> Option<seq<string>>,
                         json: string -> Option<StoryFields>, now: nat): (r: Result<GeneratedStory, string>)
    ensures r.Failure? <==> api(BuildRequest(p)).None? || |api(BuildRequest(p)).value| == 0
    ensures r.Failure? ==> r.error == GenerationFailed
    ensures r.Success? ==> r.value == ParseResponse(api(BuildRequest(p)).value[0], json, now)
  {
    match api(BuildRequest(p))
    case None => Failure(GenerationFailed)
    case Some(choices) =>
      if |choices| == 0 then Failure(GenerationFailed)
      else Success(ParseResponse(choices[0], json, now))
  }

  /** Non-JSON model text never makes generation fail: it degrades to the fallback story. */
  lemma NonJsonTextNeverFails(p: StoryParams, api: ChatRequest -> Option<seq<string>>,
                              json: string -> Option<StoryFields>, now: nat)
    requires api(BuildRequest(p)).Some? && |api(BuildRequest(p)).value| > 0
    requires json(api(BuildRequest(p)).value[0]).None?
    ensures GenerateStory(p, api, json, now)
            == Success(GeneratedStory(FallbackTitle, api(BuildRequest(p)).value[0], FallbackSummary, now))
  {
  }
}
