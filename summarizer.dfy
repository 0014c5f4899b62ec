/** `ReviewSummarizer` (src/index.ts:25-142) and the two exported helpers
    (src/index.ts:149-166), with the two services as parameters. */
module Summarizer {
  import opened Wrappers
  import opened Prompt
  import opened Backends

  /** The options a caller may pass; every field may be absent. */
  datatype ReviewSummaryOptions = ReviewSummaryOptions(
    maxCharacters: Option<nat>,
    tone: Option<Tone>,
    language: Option<string>,
    geminiModel: Option<string>,
    openaiModel: Option<string>,
    temperature: Option<real>)

  /** `Required<ReviewSummaryOptions>`: every field resolved. */
  datatype Options = Options(
    maxCharacters: nat,
    tone: Tone,
    language: string,
    geminiModel: string,
    openaiModel: string,
    temperature: real)

  /** The provider selection. The name is a plain string: the dispatch has a
      branch for names other than the two it knows. */
  datatype AIProvider = AIProvider(name: string, apiKey: string, options: Option<ReviewSummaryOptions>)

  /** A summarizer holds its provider and the options resolved once at construction. */
  datatype ReviewSummarizer = ReviewSummarizer(provider: AIProvider, options: Options)

  const DefaultMaxCharacters: nat := 250
  const DefaultTone: Tone := Friendly
  const DefaultLanguage: string := "es"
  const DefaultGeminiModel: string := "gemini-1.5-flash"
  const DefaultOpenAIModel: string := "gpt-3.5-turbo"
  const DefaultTemperature: real := 0.7

  const EmptyReviewsMessage: string := "Reviews array cannot be empty"
  const FailurePrefix: string := "Failed to generate summary: "
  const UnknownError: string := "Unknown error"

  function UnsupportedProviderMessage(name: string): string {
    "Unsupported AI provider: " + name
  }

  const NoOptions: ReviewSummaryOptions := ReviewSummaryOptions(None, None, None, None, None, None)

  /** `provider.options?.field ?? default`, one field at a time: a supplied
      field is kept as it is (a supplied 0 included), an absent one takes its
      own default. */
  function ResolveOptions(given: Option<ReviewSummaryOptions>): (r: Options)
    ensures r.maxCharacters ==
      if given.Some? && given.value.maxCharacters.Some? then given.value.maxCharacters.value else DefaultMaxCharacters
    ensures r.tone ==
      if given.Some? && given.value.tone.Some? then given.value.tone.value else DefaultTone
    ensures r.language ==
      if given.Some? && given.value.language.Some? then given.value.language.value else DefaultLanguage
    ensures r.geminiModel ==
      if given.Some? && given.value.geminiModel.Some? then given.value.geminiModel.value else DefaultGeminiModel
    ensures r.openaiModel ==
      if given.Some? && given.value.openaiModel.Some? then given.value.openaiModel.value else DefaultOpenAIModel
    ensures r.temperature ==
      if given.Some? && given.value.temperature.Some? then given.value.temperature.value else DefaultTemperature
  {
    var o := given.GetOr(NoOptions);
    Options(
      o.maxCharacters.GetOr(DefaultMaxCharacters),
      o.tone.GetOr(DefaultTone),
      o.language.GetOr(DefaultLanguage),
      o.geminiModel.GetOr(DefaultGeminiModel),
      o.openaiModel.GetOr(DefaultOpenAIModel),
      o.temperature.GetOr(DefaultTemperature))
  }

  /** The constructor, which `createReviewSummarizer` calls. */
  function CreateReviewSummarizer(provider: AIProvider): (s: ReviewSummarizer)
    ensures s.provider == provider
    ensures s.options == ResolveOptions(provider.options)
  {
    ReviewSummarizer(provider, ResolveOptions(provider.options))
  }

  function GeminiRequestFor(s: ReviewSummarizer, prompt: string): GeminiRequest {
    GeminiRequest(s.provider.apiKey, s.options.geminiModel, s.options.temperature, TokenHint(s.options.maxCharacters), prompt)
  }

  function ChatRequestFor(s: ReviewSummarizer, prompt: string): ChatRequest {
    ChatRequest(
      s.provider.apiKey,
      s.options.openaiModel,
      [ChatMessage(System, SystemInstruction), ChatMessage(User, prompt)],
      s.options.temperature,
      TokenHint(s.options.maxCharacters))
  }

  /** `generateWithGemini`: the text of the response. */
  function GenerateWithGemini(s: ReviewSummarizer, prompt: string, gemini: GeminiBackend): Outcome<string> {
    gemini(GeminiRequestFor(s, prompt))
  }

  /** `generateWithOpenAI`: the first choice's content, `""` when there is none. */
  function GenerateWithOpenAI(s: ReviewSummarizer, prompt: string, openai: OpenAIBackend): Outcome<string> {
    match openai(ChatRequestFor(s, prompt))
    case Resolved(choices) => Resolved(FirstChoiceText(choices))
    case Rejected(m) => Rejected(m)
  }

  /** The `catch` block: every failure is rethrown with one prefix. */
  function Settle(attempt: Outcome<string>): Result<string, string> {
    match attempt
    case Resolved(text) => Success(text)
    case Rejected(m) => Failure(FailurePrefix + m.GetOr(UnknownError))
  }

  /** `generateSummary`: the empty-batch check outside the `try`, then the
      prompt, then a switch over the provider name inside it. */
  function GenerateSummary(
    s: ReviewSummarizer, reviews: seq<string>, context: Option<string>,
    gemini: GeminiBackend, openai: OpenAIBackend): Result<string, string>
  {
    if |reviews| == 0 then Failure(EmptyReviewsMessage)
    else
      var prompt := BuildPrompt(s.options.tone, s.options.maxCharacters, reviews, context);
      Settle(
        if s.provider.name == "gemini" then GenerateWithGemini(s, prompt, gemini)
        else if s.provider.name == "openai" then GenerateWithOpenAI(s, prompt, openai)
        else Rejected(Some(UnsupportedProviderMessage(s.provider.name))))
  }

  /** `summarizeReviews`: construct, then generate. */
  function SummarizeReviews(
    reviews: seq<string>, provider: AIProvider, context: Option<string>,
    gemini: GeminiBackend, openai: OpenAIBackend): Result<string, string>
  {
    GenerateSummary(CreateReviewSummarizer(provider), reviews, context, gemini, openai)
  }

  // Properties of the model

  /** Without options every field takes its default. */
  lemma DefaultOptions()
    ensures ResolveOptions(None) == Options(250, Friendly, "es", "gemini-1.5-flash", "gpt-3.5-turbo", 0.7)
  {
  }

  /** An empty batch fails with the bare precondition message, whatever the
      services would do, so neither is consulted. */
  lemma EmptyBatchFails(s: ReviewSummarizer, context: Option<string>, gemini: GeminiBackend, openai: OpenAIBackend)
    ensures GenerateSummary(s, [], context, gemini, openai) == Failure("Reviews array cannot be empty")
    ensures !IsPrefix(FailurePrefix, EmptyReviewsMessage)
  {
    assert FailurePrefix[0] != EmptyReviewsMessage[0];
  }

  /** The empty-batch message is the only failure without the prefix. */
  lemma FailureMessages(
    s: ReviewSummarizer, reviews: seq<string>, context: Option<string>,
    gemini: GeminiBackend, openai: OpenAIBackend)
    ensures var r := GenerateSummary(s, reviews, context, gemini, openai);
      r.Failure? ==> (IsPrefix(FailurePrefix, r.error) <==> |reviews| > 0)
  {
    var r := GenerateSummary(s, reviews, context, gemini, openai);
    if r.Failure? {
      if |reviews| == 0 {
        EmptyBatchFails(s, context, gemini, openai);
      } else {
        var rest := r.error[|FailurePrefix|..];
        assert r.error == FailurePrefix + rest;
        PrefixOfConcat(FailurePrefix, rest);
      }
    }
  }

  /** With provider "gemini" the result is the Gemini service's outcome on one
      request: the prompt, `geminiModel`, `temperature` and the token hint. */
  lemma GeminiRoute(
    s: ReviewSummarizer, reviews: seq<string>, context: Option<string>,
    gemini: GeminiBackend, openai: OpenAIBackend)
    requires |reviews| > 0 && s.provider.name == "gemini"
    ensures
      var out := gemini(GeminiRequest(
        s.provider.apiKey, s.options.geminiModel, s.options.temperature,
        TokenHint(s.options.maxCharacters),
        BuildPrompt(s.options.tone, s.options.maxCharacters, reviews, context)));
      var r := GenerateSummary(s, reviews, context, gemini, openai);
      && (out.Resolved? ==> r == Success(out.value))
      && (out.Rejected? && out.message.Some? ==> r == Failure("Failed to generate summary: " + out.message.value))
      && (out.Rejected? && out.message.None? ==> r == Failure("Failed to generate summary: Unknown error"))
  {
    assert FailurePrefix + UnknownError == "Failed to generate summary: Unknown error";
  }

  /** With provider "openai" the result is taken from the OpenAI service's
      outcome on one chat request: the system message then the prompt,
      `openaiModel`, `temperature` and the same token hint. */
  lemma OpenAIRoute(
    s: ReviewSummarizer, reviews: seq<string>, context: Option<string>,
    gemini: GeminiBackend, openai: OpenAIBackend)
    requires |reviews| > 0 && s.provider.name == "openai"
    ensures
      var out := openai(ChatRequest(
        s.provider.apiKey, s.options.openaiModel,
        [ChatMessage(System, SystemInstruction),
         ChatMessage(User, BuildPrompt(s.options.tone, s.options.maxCharacters, reviews, context))],
        s.options.temperature, TokenHint(s.options.maxCharacters)));
      var r := GenerateSummary(s, reviews, context, gemini, openai);
      && (out.Resolved? ==> r == Success(FirstChoiceText(out.value)))
      && (out.Resolved? && |out.value| == 0 ==> r == Success(""))
      && (out.Rejected? && out.message.Some? ==> r == Failure("Failed to generate summary: " + out.message.value))
      && (out.Rejected? && out.message.None? ==> r == Failure("Failed to generate summary: Unknown error"))
  {
    assert FailurePrefix + UnknownError == "Failed to generate summary: Unknown error";
  }

  /** Any other provider name fails inside the `try`, so its message is
      prefixed, and no service is consulted. */
  lemma UnsupportedProvider(
    s: ReviewSummarizer, reviews: seq<string>, context: Option<string>,
    gemini: GeminiBackend, openai: OpenAIBackend)
    requires |reviews| > 0 && s.provider.name != "gemini" && s.provider.name != "openai"
    ensures GenerateSummary(s, reviews, context, gemini, openai)
         == Failure("Failed to generate summary: Unsupported AI provider: " + s.provider.name)
  {
    var lead := "Unsupported AI provider: ";
    assert FailurePrefix + lead == "Failed to generate summary: Unsupported AI provider: ";
    Associate(FailurePrefix, lead, s.provider.name);
  }

  /** Exactly one service is consulted: the result does not depend on the other one. */
  lemma OneBackendConsulted(
    s: ReviewSummarizer, reviews: seq<string>, context: Option<string>,
    g1: GeminiBackend, g2: GeminiBackend, o1: OpenAIBackend, o2: OpenAIBackend)
    ensures s.provider.name == "gemini" ==>
      GenerateSummary(s, reviews, context, g1, o1) == GenerateSummary(s, reviews, context, g1, o2)
    ensures s.provider.name == "openai" ==>
      GenerateSummary(s, reviews, context, g1, o1) == GenerateSummary(s, reviews, context, g2, o1)
    ensures s.provider.name != "gemini" && s.provider.name != "openai" ==>
      GenerateSummary(s, reviews, context, g1, o1) == GenerateSummary(s, reviews, context, g2, o2)
  {
  }

  /** A stand-in Gemini service that fails with the prompt it was sent. */
  function EchoGemini(req: GeminiRequest): Outcome<string> {
    Rejected(Some(req.prompt))
  }

  /** A stand-in OpenAI service that fails with the user message it was sent. */
  function EchoOpenAI(req: ChatRequest): Outcome<seq<Choice>> {
    if |req.messages| == 2 && req.messages[1].role == User then Rejected(Some(req.messages[1].content))
    else Rejected(None)
  }

  /** Both services are sent the same prompt, which depends on the options'
      tone and length only, not on the provider. */
  lemma SamePromptForBothBackends(
    sg: ReviewSummarizer, so: ReviewSummarizer, reviews: seq<string>, context: Option<string>,
    gemini: GeminiBackend, openai: OpenAIBackend)
    requires |reviews| > 0 && sg.provider.name == "gemini" && so.provider.name == "openai"
    requires sg.options.tone == so.options.tone && sg.options.maxCharacters == so.options.maxCharacters
    ensures GenerateSummary(sg, reviews, context, EchoGemini, openai)
         == GenerateSummary(so, reviews, context, gemini, EchoOpenAI)
         == Failure(FailurePrefix + BuildPrompt(sg.options.tone, sg.options.maxCharacters, reviews, context))
  {
  }

  /** The prompt a service receives reads back as the summarizer's tone and
      length and the batch's reviews and context line. */
  lemma SentPromptReadsBack(
    s: ReviewSummarizer, reviews: seq<string>, context: Option<string>, openai: OpenAIBackend)
    requires |reviews| > 0 && s.provider.name == "gemini"
    ensures var r := GenerateSummary(s, reviews, context, EchoGemini, openai);
      && r.Failure? && IsPrefix(FailurePrefix, r.error)
      && ParsePrompt(r.error[|FailurePrefix|..])
         == Some(PromptFields(s.options.tone, Section(reviews, context), s.options.maxCharacters))
  {
    var prompt := BuildPrompt(s.options.tone, s.options.maxCharacters, reviews, context);
    var r := GenerateSummary(s, reviews, context, EchoGemini, openai);
    assert r.error == FailurePrefix + prompt;
    PrefixOfConcat(FailurePrefix, prompt);
    assert r.error[|FailurePrefix|..] == prompt;
    ParseBuildPrompt(s.options.tone, s.options.maxCharacters, reviews, context);
  }

  /** `summarizeReviews` with no options and provider "gemini" sends the
      default model, temperature 0.7 and a hint of 63 tokens for 250 characters. */
  lemma SummarizeWithDefaults(
    reviews: seq<string>, apiKey: string, context: Option<string>,
    gemini: GeminiBackend, openai: OpenAIBackend)
    requires |reviews| > 0
    ensures
      var out := gemini(GeminiRequest(apiKey, "gemini-1.5-flash", 0.7, 63, BuildPrompt(Friendly, 250, reviews, context)));
      var r := SummarizeReviews(reviews, AIProvider("gemini", apiKey, None), context, gemini, openai);
      && (out.Resolved? ==> r == Success(out.value))
      && (out.Rejected? ==> r.Failure?)
  {
    TokenHintExamples();
  }

  /** The `language` option is resolved but never read: changing it changes nothing. */
  lemma LanguageHasNoEffect(
    s: ReviewSummarizer, language: string, reviews: seq<string>, context: Option<string>,
    gemini: GeminiBackend, openai: OpenAIBackend)
    ensures GenerateSummary(s.(options := s.options.(language := language)), reviews, context, gemini, openai)
         == GenerateSummary(s, reviews, context, gemini, openai)
  {
  }
}
