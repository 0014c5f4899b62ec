# simple-review-ia: a Dafny model of the review summarizer

`simple-review-ia` turns a batch of customer reviews into one instruction
prompt (in Spanish) and sends it to one of two text-generation services,
Gemini or OpenAI, returning the generated summary. This project models the
deterministic part of `src/index.ts`:

- option defaulting in the `ReviewSummarizer` constructor;
- `buildPrompt`: the tone table, the reviews joined by a blank line, the
  optional context line and the nine-rule template;
- `generateSummary`: the empty-batch check, the switch over the provider
  name and the error wrapping of its `try`/`catch`;
- the request each adapter builds (model, temperature, the token hint
  `ceil(maxCharacters / 4)`, the chat messages) and the OpenAI text extraction;
- `createReviewSummarizer` and `summarizeReviews` as composition.

The two services are parameters: `GeminiBackend` maps a `GeminiRequest` to an
`Outcome<string>`, `OpenAIBackend` maps a `ChatRequest` to an
`Outcome<seq<Choice>>`. An outcome is `Resolved(value)` or `Rejected(message)`,
where `message` is `Some(m)` for a thrown `Error` and `None` for any other
thrown value. `GenerateSummary` is then a total function from the summarizer,
the reviews, the context and the two services to `Result<string, string>`.
`Success` is a resolved promise and `Failure(msg)` a rejection with an
`Error` whose message is `msg`.

Files, one module each: `wrappers.dfy` (Option, Result), `strings.dfy`
(`join`, decimal rendering of numbers), `prompt.dfy` (the template and a
reader for it), `backends.dfy` (requests, outcomes, token hint, choice text),
`summarizer.dfy` (options, constructor, `generateSummary`, `summarizeReviews`).

The prompt is given a partner, `ParsePrompt`, which reads a prompt back into
its tone, its rule-5 number and the text between the reviews header and the
rules. `ParseBuildPrompt` proves that parsing a rendered prompt returns the
fields it was rendered from. Conversely, `ParsedPromptIsRendered` and
`ParsedPromptIsBuilt` prove that every prompt that parses is exactly the
template around its fields.

Two details of the code are easy to misread:

- The thrown value is turned into a message by
  `error instanceof Error ? error.message : "Unknown error"`
  (src/index.ts:63). "Unknown error" therefore stands only for a thrown value
  that is not an `Error`. An `Error("")` yields the bare prefix
  `"Failed to generate summary: "`.
- The `language` option is documented as the language of the summary
  (src/index.ts:9) and is resolved at src/index.ts:32, but it is never read.
  The template is always Spanish, and `LanguageHasNoEffect` proves that the
  option changes nothing.

## Model

| member | source | states |
|---|---|---|
| Summarizer.ResolveOptions | src/index.ts:29-36 | each of the six options on its own: a supplied value is kept unchanged (a supplied 0 included), an absent one takes its own default (250, friendly, "es", "gemini-1.5-flash", "gpt-3.5-turbo", 0.7) |
| Summarizer.DefaultOptions | src/index.ts:30-35 | with no options object at all, every field is its default |
| Summarizer.CreateReviewSummarizer | src/index.ts:149-151 | the summarizer keeps the provider and holds the options resolved from it |
| Summarizer.LanguageHasNoEffect | src/index.ts:32 | the resolved `language` option does not affect the result of generating a summary |
| Prompt.TaskLineTone | src/index.ts:70-81 | when the phrase of tone t follows "TAREA: Generar un resumen ", the reader returns exactly t, and the phrases of the other two tones do not match there |
| Prompt.ContextText | src/index.ts:77 | the context line is empty exactly when the context is absent or the empty string, and is otherwise "\nContexto adicional: " followed by the context |
| Prompt.ParseBuildPrompt | src/index.ts:69-98 | reading a rendered prompt back gives the tone, the reviews joined by "\n\n" followed by the context line, and `maxCharacters` |
| Prompt.ParsedPromptIsBuilt | src/index.ts:69-98 | a prompt that reads back is what `BuildPrompt` renders from its tone and number, with the section as the only review and no context |
| Prompt.ParsedPromptIsRendered | src/index.ts:79-97 | a prompt that reads back is exactly the template: task line with the tone, the "RESEÑAS A RESUMIR:" header, the section, rules 1-3, rule 4 with the same tone, rule 5 "Máximo <n> caracteres", rules 6-9 and "RESUMEN:" |
| Prompt.RuleFiveOfFooter | src/index.ts:91 | the number written in rule 5 reads back as `maxCharacters`, whatever precedes the rules |
| Strings.JoinPlacesElement | src/index.ts:76 | in the joined reviews, review i sits, unchanged, at the offset given by the lengths of the reviews before it plus one separator each |
| Strings.JoinPlacesSeparator | src/index.ts:76 | every review after the first is directly preceded by the separator "\n\n" |
| Strings.JoinLength | src/index.ts:76 | the joined text holds the reviews and the separators between them and nothing else |
| Strings.NatToDecimal | src/index.ts:91 | a number is interpolated as a non-empty string of decimal digits with no leading zero |
| Strings.DecimalRoundTrip | src/index.ts:91 | the interpolated digits parse back to the number |
| Backends.TokenHint | src/index.ts:106 | the hint t satisfies maxCharacters <= 4t < maxCharacters + 4, so it is the ceiling of maxCharacters / 4 |
| Backends.TokenHintIsLeast | src/index.ts:136 | no smaller token count covers the character budget at four characters per token |
| Backends.TokenHintExamples | src/index.ts:106 | 100 characters give 25 tokens, 250 give 63, 0 gives 0 |
| Backends.FirstChoiceText | src/index.ts:139-140 | the text is non-empty exactly when the first choice has a message with non-empty content, and is that content; otherwise it is "" (no choices, no message, no content) |
| Summarizer.EmptyBatchFails | src/index.ts:45-47 | an empty batch fails with exactly "Reviews array cannot be empty", whatever the services are, and that message is not prefixed |
| Summarizer.FailureMessages | src/index.ts:44-66 | a failure carries the "Failed to generate summary: " prefix if and only if the batch is non-empty |
| Summarizer.GeminiRoute | src/index.ts:49-115 | with provider "gemini" the result is the Gemini outcome on the request (apiKey, geminiModel, temperature, token hint, prompt); a resolved text is returned unchanged, an error message m becomes "Failed to generate summary: " + m, a non-Error becomes "...: Unknown error" |
| Summarizer.OpenAIRoute | src/index.ts:49-141 | with provider "openai" the result comes from the OpenAI outcome on the chat request (apiKey, openaiModel, system message then the prompt as user message, temperature, the same token hint); success gives the first choice's text, "" for no choices; failures are wrapped as for Gemini |
| Summarizer.UnsupportedProvider | src/index.ts:57-58 | any other provider name on a non-empty batch fails with "Failed to generate summary: Unsupported AI provider: " + name |
| Summarizer.OneBackendConsulted | src/index.ts:52-59 | the result does not depend on the service that the provider name does not select, or on either service for an unknown name |
| Summarizer.SamePromptForBothBackends | src/index.ts:49-56 | recording stand-ins show both services are sent the same prompt, determined by the tone and maxCharacters, not by the provider |
| Summarizer.SentPromptReadsBack | src/index.ts:49-54 | the prompt a service receives reads back as the summarizer's tone and maxCharacters and the batch's reviews and context line |
| Summarizer.SummarizeWithDefaults | src/index.ts:159-166 | `summarizeReviews` without options sends model "gemini-1.5-flash", temperature 0.7 and 63 tokens, and returns the service's text |

`TonePhrase` (the tone table, src/index.ts:70-74), `BuildPrompt`
(src/index.ts:69-98), `GeminiRequestFor` (the request built at
src/index.ts:102-110), `ChatRequestFor` (the request built at
src/index.ts:118-137), `GenerateSummary`, `SummarizeReviews`,
`GenerateWithGemini`, `GenerateWithOpenAI` and `Settle` (the `catch` block)
are the modelled functions themselves. What they do is stated by the lemmas
above.

## Left out

- The Gemini and OpenAI SDK clients, their construction from the API key and the network round trips are not modelled. They are foreign calls, so each service is a function parameter from request to outcome.
- `async`/`await` is not modelled: a promise is its settled `Result`.
- `temperature` is a `real` passed through unchanged; floating-point behaviour is not modelled.
- `maxCharacters` is a `nat`. Negative and fractional values are not modelled. Every value is rendered in plain decimal, while JavaScript uses exponent notation from 1e21 up and loses precision above 2^53.
- A tone outside the three of the TypeScript type is not representable (`Tone` has three constructors). JavaScript would render the word "undefined" in its place.
- The `!reviews` guard for a missing or null array is a dynamic-typing check; a Dafny sequence rules it out.
- A thrown value keeps only its message; stack traces and error classes are not modelled.
- Prompt.ParsePrompt: does not split the section back into the individual reviews and the context line, because a review may itself contain "\n\n" or the context label. The Join lemmas say where each review sits instead.
- The provider is captured as a value. The source keeps a reference to the caller's `AIProvider` object (src/index.ts:28) and reads its `name` and `apiKey` on every call (src/index.ts:52, 101, 119), copying only the options at construction (src/index.ts:29-36). So a caller who later changes `name` or `apiKey` on that object changes the backend or key used, while later changes to `options` have no effect. The model does not capture that aliasing.
