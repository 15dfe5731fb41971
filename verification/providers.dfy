/**
 The four documentation providers the endpoint can dispatch to, and the two
 places the endpoint names them: the set of providers that need an API key
 (main.py line 88) and the if/elif chain that picks a generator (lines
 107-116). The lemmas show the two agree.
 */
module Providers {

  import opened Values

  datatype Provider = Groq | Gemini | OpenAI | OpenRouter

  /** The lower-case name the endpoint compares against. */
  function Name(p: Provider): string {
    match p
    case Groq => "groq"
    case Gemini => "gemini"
    case OpenAI => "openai"
    case OpenRouter => "openrouter"
  }

  /** Providers for which an empty API key is rejected before any work. */
  const KeyedProviders: set<string> := {"groq", "gemini", "openai", "openrouter"}

  /** The if/elif chain over the lower-cased provider name. */
  function Parse(name: string): (p: Option<Provider>)
    ensures p.Some? ==> Name(p.value) == name
  {
    if name == "groq" then Some(Groq)
    else if name == "gemini" then Some(Gemini)
    else if name == "openai" then Some(OpenAI)
    else if name == "openrouter" then Some(OpenRouter)
    else None
  }

  /** Every provider is reached by its own name, and only by it. */
  lemma ParseName(p: Provider, name: string)
    ensures Parse(name) == Some(p) <==> name == Name(p)
  {
  }

  /** A name needs a key exactly when the dispatcher recognises it. */
  lemma KeyedIffDispatched(name: string)
    ensures name in KeyedProviders <==> Parse(name).Some?
  {
  }
}
