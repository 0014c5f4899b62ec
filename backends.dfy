/** The two text-generation services as seen from the summarizer: the requests
    it builds (src/index.ts:100-141) and the outcomes it gets back. The services
    themselves are parameters of the model. */
module Backends {
  import opened Wrappers

  /** How a backend call settles: a value, or a thrown value. A thrown `Error`
      carries `Some(message)`; anything else that is thrown carries `None`. */
  datatype Outcome<+T> = Resolved(value: T) | Rejected(message: Option<string>)

  /** `getGenerativeModel({model, generationConfig})` followed by `generateContent(prompt)`. */
  datatype GeminiRequest = GeminiRequest(
    apiKey: string,
    model: string,
    temperature: real,
    maxOutputTokens: nat,
    prompt: string)

  datatype Role = System | User

  datatype ChatMessage = ChatMessage(role: Role, content: string)

  /** `chat.completions.create({model, messages, temperature, max_tokens})`. */
  datatype ChatRequest = ChatRequest(
    apiKey: string,
    model: string,
    messages: seq<ChatMessage>,
    temperature: real,
    maxTokens: nat)

  /** A completion choice; its `message` and that message's `content` may be missing. */
  datatype ChoiceMessage = ChoiceMessage(content: Option<string>)
  datatype Choice = Choice(message: Option<ChoiceMessage>)

  /** The Gemini service: `response.text()` for a request, or what it throws. */
  type GeminiBackend = GeminiRequest -> Outcome<string>

  /** The OpenAI service: the `choices` of a completion, or what it throws. */
  type OpenAIBackend = ChatRequest -> Outcome<seq<Choice>>

  /** The system-role message that precedes the prompt in every chat request. */
  const SystemInstruction: string :=
    "Eres un asistente especializado en generar resúmenes concisos de reseñas de clientes. "
    + "Tu única tarea es crear resúmenes directos sin saludos, despedidas o comentarios adicionales. "
    + "Responde únicamente con el resumen solicitado."

  /** `Math.ceil(maxCharacters / 4)`: about four characters per token. */
  function TokenHint(maxCharacters: nat): (tokens: nat)
    ensures maxCharacters <= 4 * tokens < maxCharacters + 4
  {
    (maxCharacters + 3) / 4
  }

  /** The hint is the least token count whose four-character budget covers the limit. */
  lemma TokenHintIsLeast(maxCharacters: nat, k: nat)
    requires maxCharacters <= 4 * k
    ensures TokenHint(maxCharacters) <= k
  {
  }

  lemma TokenHintExamples()
    ensures TokenHint(100) == 25 && TokenHint(250) == 63 && TokenHint(0) == 0
  {
  }

  /** `choices[0]?.message?.content || ""`: the first choice's text, or the
      empty string when there is no choice, no message or no content. */
  function FirstChoiceText(choices: seq<Choice>): (text: string)
    ensures text != "" <==>
      && |choices| > 0
      && choices[0].message.Some?
      && choices[0].message.value.content.Some?
      && choices[0].message.value.content.value != ""
    ensures text != "" ==> text == choices[0].message.value.content.value
  {
    if |choices| == 0 then ""
    else match choices[0].message
      case None => ""
      case Some(m) => m.content.GetOr("")
  }
}
