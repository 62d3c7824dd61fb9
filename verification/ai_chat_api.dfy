/** The AI-chat route of the API: POST validates the message, picks a canned
    response generator by model id (falling back to the GPT-4 one) and returns
    its text. The artificial latency and the timestamp are not modelled; the
    timestamp is a parameter. */
module AiChatApi {
  import opened Common

  /** The five canned generators of the route's `modelResponses` table. */
  datatype Generator = Gpt4 | Gpt35Turbo | GeminiPro | Claude3 | RunAnywhere

  /** The model id each generator is stored under. */
  function ModelId(g: Generator): string
  {
    match g
    case Gpt4 => "gpt-4"
    case Gpt35Turbo => "gpt-3.5-turbo"
    case GeminiPro => "gemini-pro"
    case Claude3 => "claude-3"
    case RunAnywhere => "run-anywhere"
  }

  /** The model id a request gets when it names none. */
  const DefaultModel: string := "gpt-4"

  /** How many characters of the prompt a response quotes. */
  const QuoteLength: nat := 50

  /** `modelResponses[model]`: the generator stored under an id, if any. */
  function Lookup(model: string): (g: Option<Generator>)
    ensures g.Some? ==> ModelId(g.value) == model
    ensures g.None? ==> forall h: Generator :: ModelId(h) != model
  {
    if model == "gpt-4" then Some(Gpt4)
    else if model == "gpt-3.5-turbo" then Some(Gpt35Turbo)
    else if model == "gemini-pro" then Some(GeminiPro)
    else if model == "claude-3" then Some(Claude3)
    else if model == "run-anywhere" then Some(RunAnywhere)
    else None
  }

  /** `modelResponses[model] || modelResponses['gpt-4']`. */
  function Choose(model: string): (g: Generator)
    ensures Lookup(model).Some? ==> g == Lookup(model).value
    ensures Lookup(model).None? ==> g == Gpt4
  {
    match Lookup(model)
    case Some(g) => g
    case None => Gpt4
  }

  /** The bracketed tag each response starts with. */
  function Tag(g: Generator): string
  {
    match g
    case Gpt4 => "[GPT-4 Response]"
    case Gpt35Turbo => "[GPT-3.5 Response]"
    case GeminiPro => "[Gemini Pro Response]"
    case Claude3 => "[Claude 3 Response]"
    case RunAnywhere => "[RunAnywhere Response]"
  }

  /** The text between the tag and the quoted prompt. */
  function Intro(g: Generator): string
  {
    match g
    case Gpt4 => "\n\nI've analyzed your question: \""
    case Gpt35Turbo => "\n\nRegarding your question about \""
    case GeminiPro => "\n\nAnalyzing: \""
    case Claude3 => "\n\nThank you for your question: \""
    case RunAnywhere => "\n\nProcessing: \""
  }

  /** The text after the quoted prompt and its ellipsis. */
  function Closing(g: Generator): string
  {
    match g
    case Gpt4 =>
      "\"\n\nHere's my response:\n\nThis is a simulated GPT-4 response. In production, this would connect to the OpenAI API to provide intelligent responses to your academic questions.\n\nKey points:\n1. AI-powered analysis of your query\n2. Context-aware responses\n3. Academic assistance and explanations"
    case Gpt35Turbo =>
      "\"\n\nThis is a simulated GPT-3.5-turbo response. It provides fast and efficient answers for general questions.\n\nIn production, this connects to the OpenAI API."
    case GeminiPro =>
      "\"\n\nThis is a simulated Google Gemini Pro response. In production, this would connect to the Google AI API.\n\nGemini excels at:\n- Multi-modal understanding\n- Complex reasoning\n- Academic research assistance"
    case Claude3 =>
      "\"\n\nThis is a simulated Claude 3 response. In production, this would connect to the Anthropic API.\n\nClaude is known for:\n- Nuanced understanding\n- Helpful and harmless responses\n- Academic writing assistance"
    case RunAnywhere =>
      "\"\n\nThis is a simulated RunAnywhere response. This service provides:\n- Code execution\n- Multi-language support\n- Cloud computing capabilities"
  }

  /** A generator's text for a prompt: it starts with the generator's tag and
      quotes at most the first 50 characters of the prompt, followed by `...`. */
  function Generate(g: Generator, prompt: string): (r: string)
    ensures |Tag(g)| <= |r| && r[..|Tag(g)|] == Tag(g)
    ensures var lead := |Tag(g)| + |Intro(g)|;
            var quote := Take(prompt, QuoteLength);
            && lead + |quote| + 3 <= |r|
            && r[lead..lead + |quote|] == quote
            && r[lead + |quote|..lead + |quote| + 3] == "..."
            && |quote| <= QuoteLength
            && quote <= prompt
  {
    Layout(Tag(g), Intro(g), Take(prompt, QuoteLength), Closing(g))
  }

  /** `tag + intro + quote + "..." + closing`, with where each part sits in it. */
  function Layout(tag: string, intro: string, quote: string, closing: string): (r: string)
    ensures var lead := |tag| + |intro|;
            && |tag| <= |r| && r[..|tag|] == tag
            && lead + |quote| + 3 <= |r|
            && r[lead..lead + |quote|] == quote
            && r[lead + |quote|..lead + |quote| + 3] == "..."
  {
    var r := tag + intro + quote + "..." + closing;
    assert r == tag + (intro + quote + "..." + closing);
    assert r == (tag + intro) + quote + ("..." + closing);
    assert r == (tag + intro + quote) + "..." + closing;
    r
  }

  /** What POST answers, with its HTTP status. A successful answer keeps the
      generator and the prompt; `Text` renders the `response` string from them. */
  datatype Response =
    | Answered(writer: Generator, prompt: string, model: string, timestamp: string)
    | Failed(code: nat, error: string)
  {
    function Status(): nat
    {
      match this
      case Answered(_, _, _, _) => 200
      case Failed(code, _) => code
    }

    /** The `response` field of a successful answer. */
    function Text(): string
      requires Answered?
    {
      Generate(writer, prompt)
    }
  }

  /** POST: 400 when the message is missing or empty; otherwise the text of the
      generator chosen for the model id (default 'gpt-4'), with that id echoed
      back even when the fallback generator wrote the text. */
  function Chat(message: Option<string>, model: Option<string>, now: string): (r: Response)
    ensures !Truthy(message) <==> r == Failed(400, "Message is required")
    ensures Truthy(message) ==>
      var id := if model.Some? then model.value else DefaultModel;
      && r.Answered?
      && r.model == id
      && r.writer == Choose(id)
      && r.prompt == message.value
  {
    var id := if model.Some? then model.value else DefaultModel;
    if !Truthy(message) then Failed(400, "Message is required")
    else Answered(Choose(id), message.value, id, now)
  }

  /** A request without a model id is answered by the GPT-4 generator. */
  lemma DefaultIsGpt4(message: string, now: string)
    requires message != ""
    ensures Chat(Some(message), None, now).writer == Gpt4
    ensures Chat(Some(message), None, now).model == "gpt-4"
  {
  }

  /** An id outside the table falls back to the GPT-4 generator but is echoed as sent. */
  lemma UnknownModelFallsBack(message: string, model: string, now: string)
    requires message != ""
    requires forall g: Generator :: ModelId(g) != model
    ensures Chat(Some(message), Some(model), now).writer == Gpt4
    ensures Chat(Some(message), Some(model), now).model == model
  {
  }

  /** Every id in the table selects its own generator. */
  lemma KnownModelSelectsOwnGenerator(g: Generator)
    ensures Choose(ModelId(g)) == g
  {
  }
}
