/** Types shared by the main-process components: failure-compatible wrappers,
    the overlay's three views and the two AI providers. */
module Common {

  datatype Option<+T> = None | Some(value: T) {
    function GetOr(default: T): T {
      match this
      case Some(v) => v
      case None => default
    }
  }

  /** A JavaScript `{ success, data?, error? }` outcome. */
  datatype Result<+T> = Ok(value: T) | Err(error: string)

  /** The view the overlay shows; it also selects the screenshot queue. */
  datatype View = Queue | Solutions | Debug

  /** The two supported model vendors, "openai" and "gemini". */
  datatype Provider = OpenAI | Gemini

  /** The provider's wire name, as stored in config.json. */
  function ProviderName(p: Provider): string {
    match p
    case OpenAI => "openai"
    case Gemini => "gemini"
  }

  /** Reads a provider name back; any other string is not a provider. */
  function ParseProvider(s: string): (r: Option<Provider>)
    ensures r.Some? <==> (s == "openai" || s == "gemini")
    ensures r.Some? ==> ProviderName(r.value) == s
  {
    if s == "openai" then Some(OpenAI)
    else if s == "gemini" then Some(Gemini)
    else None
  }

  lemma {:induction false} ProviderNameRoundTrip(p: Provider)
    ensures ParseProvider(ProviderName(p)) == Some(p)
  {
  }
}
