/** The text-generation providers of `backend/services/providers.py`: a
    Hugging Face client as primary, an OpenAI client as fallback, and
    `LLMEngine`, which tries them in that order and never raises. The remote
    chat-completion calls are oracles. */
module Providers {
  import opened Common

  /** What a provider's `generate` does with a prompt: return the completion
      text, or raise an exception with the given message. */
  datatype Reply = Completed(text: string) | Raised(message: string)

  /** A remote chat-completion endpoint. */
  type Client = string -> Reply

  /** The primary provider (Mistral-7B-Instruct through the Hugging Face
      inference client). */
  class HFProvider {
    const client: Client

    constructor (client: Client)
      ensures this.client == client
    {
      this.client := client;
    }

    /** `HFProvider.generate`: whatever the chat completion gives. */
    function Generate(prompt: string): (r: Reply)
      ensures r == client(prompt)
    {
      client(prompt)
    }
  }

  const OpenAIUnavailable: string := "OpenAI not available"

  /** The fallback provider. `available` is set once, by the constructor. */
  class OpenAIProvider {
    const available: bool
    const client: Client

    /** `OpenAIProvider.__init__`: no key (None or empty) leaves the provider
        unavailable; so does a client constructor that raises (`connect` is
        None). */
    constructor (apiKey: Option<string>, connect: Option<Client>)
      ensures available <==> apiKey.Some? && apiKey.value != "" && connect.Some?
      ensures available ==> client == connect.value
    {
      if apiKey.None? || apiKey.value == "" {
        available := false;
        client := _ => Raised(OpenAIUnavailable);
      } else {
        match connect {
          case Some(c) =>
            available := true;
            client := c;
          case None =>
            available := false;
            client := _ => Raised(OpenAIUnavailable);
        }
      }
    }

    /** `OpenAIProvider.generate`: an unavailable provider always raises. */
    function Generate(prompt: string): (r: Reply)
      ensures !available ==> r == Raised(OpenAIUnavailable)
      ensures available ==> r == client(prompt)
    {
      if !available then Raised(OpenAIUnavailable) else client(prompt)
    }
  }

  const BothFailedPrefix: string := "Error: Both providers failed."

  /** The primary/fallback chain. */
  class LLMEngine {
    const primary: HFProvider
    const fallback: OpenAIProvider

    /** `LLMEngine.__init__`: builds both providers. */
    constructor (hfClient: Client, openAIKey: Option<string>, openAIConnect: Option<Client>)
      ensures primary.client == hfClient
      ensures fallback.available <==> openAIKey.Some? && openAIKey.value != "" && openAIConnect.Some?
      ensures fallback.available ==> fallback.client == openAIConnect.value
    {
      primary := new HFProvider(hfClient);
      fallback := new OpenAIProvider(openAIKey, openAIConnect);
    }

    /** `LLMEngine.generate`: the primary's text if it answers, else the
        fallback's (given the same prompt), else an error string naming both
        failures. Always a string: it never raises. */
    function Generate(prompt: string): (r: string)
      ensures primary.Generate(prompt).Completed? ==> r == primary.Generate(prompt).text
      ensures primary.Generate(prompt).Raised? && fallback.Generate(prompt).Completed? ==>
        r == fallback.Generate(prompt).text
      ensures primary.Generate(prompt).Raised? && fallback.Generate(prompt).Raised? ==>
        BothFailedPrefix <= r
        && r == BothFailedPrefix + " HF: " + primary.Generate(prompt).message
              + ", OpenAI: " + fallback.Generate(prompt).message
    {
      match primary.Generate(prompt)
      case Completed(text) => text
      case Raised(e) =>
        match fallback.Generate(prompt)
        case Completed(text) => text
        case Raised(e2) => BothFailedPrefix + " HF: " + e + ", OpenAI: " + e2
    }
  }

  /** The fallback is not consulted when the primary answers: two engines
      with the same primary give the same text, whatever their fallbacks. */
  lemma FallbackUnusedWhenPrimaryAnswers(e1: LLMEngine, e2: LLMEngine, prompt: string)
    requires e1.primary == e2.primary
    requires e1.primary.Generate(prompt).Completed?
    ensures e1.Generate(prompt) == e2.Generate(prompt) == e1.primary.Generate(prompt).text
  {
  }

  /** With an unavailable fallback, a failing primary always yields the error
      string, and it carries the primary's message. */
  lemma UnavailableFallbackReportsBoth(e: LLMEngine, prompt: string)
    requires !e.fallback.available
    requires e.primary.Generate(prompt).Raised?
    ensures e.Generate(prompt)
         == BothFailedPrefix + " HF: " + e.primary.Generate(prompt).message + ", OpenAI: " + OpenAIUnavailable
  {
  }
}
