/** The two HTTP routes of the core: `POST /api/generate-email` and
    `GET /api/ai-providers`, reduced to the status code and JSON body they
    send. */
module Routes {
  import opened Wrappers
  import opened Js
  import opened Schema
  import opened Providers

  /** The JSON bodies the two routes send. */
  datatype HttpBody =
    | EmailBody(email: EmailResponse)
    | MessageBody(message: string)
    | InvalidBody(message: string, errors: seq<Issue>)
    | ProvidersBody(providers: seq<Descriptor>)

  datatype HttpResponse = HttpResponse(status: int, body: HttpBody)

  const InvalidInput := "Datos de entrada inválidos"
  const InternalError := "Error interno del servidor"

  /** `validatedData.aiProvider || "gemini"`: an empty name falls back. */
  function ProviderFor(r: Request): (p: string)
    ensures p != ""
    ensures r.aiProvider != "" ==> p == r.aiProvider
    ensures r.aiProvider == "" ==> p == DefaultProviderName
  {
    if r.aiProvider != "" then r.aiProvider else DefaultProviderName
  }

  /** What the 500 response reports: an `Error`'s message, or a generic
      text for anything else thrown. */
  function ErrorText(e: Exception): (t: string)
    ensures e.Error? ==> t == e.message
    ensures e.NonError? ==> t == InternalError
  {
    match e
    case Error(_, m) => m
    case NonError(_) => InternalError
  }

  /** `POST /api/generate-email`: 400 with the validation issues, 200 with
      the generated email, or 500 with the façade's message. */
  function GenerateEmailRoute(body: Value, isUrl: string -> bool, sdk: Sdk): (res: HttpResponse)
    ensures res.status == 200 || res.status == 400 || res.status == 500
    ensures res.status == 400 <==> !WellFormedBody(body, isUrl)
    ensures res.status == 400 ==> res.body == InvalidBody(InvalidInput, Validate(body, isUrl).error)
    ensures res.status == 200 <==>
      Validate(body, isUrl).Success? &&
      GenerateEmail(Validate(body, isUrl).value, ProviderFor(Validate(body, isUrl).value), sdk).Success?
    ensures res.status == 200 ==>
      res.body == EmailBody(GenerateEmail(Validate(body, isUrl).value, ProviderFor(Validate(body, isUrl).value), sdk).value)
    ensures res.status == 500 ==>
      res.body == MessageBody("Error al generar el email con " + ProviderFor(Validate(body, isUrl).value) + ". Verifica tu API key.")
  {
    match Validate(body, isUrl)
    case Failure(issues) => HttpResponse(400, InvalidBody(InvalidInput, issues))
    case Success(r) =>
      match GenerateEmail(r, ProviderFor(r), sdk)
      case Success(e) => HttpResponse(200, EmailBody(e))
      case Failure(err) => HttpResponse(500, MessageBody(ErrorText(err)))
  }

  /** A rejected body is answered without touching any provider: the
      response does not depend on what the SDKs would do. */
  lemma InvalidBodyIgnoresProviders(body: Value, isUrl: string -> bool, sdk1: Sdk, sdk2: Sdk)
    requires !WellFormedBody(body, isUrl)
    ensures GenerateEmailRoute(body, isUrl, sdk1) == GenerateEmailRoute(body, isUrl, sdk2)
    ensures GenerateEmailRoute(body, isUrl, sdk1).status == 400
  {
  }

  /** A body without `aiProvider`, or with an empty one, is served by Gemini. */
  lemma MissingProviderUsesGemini(body: Value, isUrl: string -> bool, sdk: Sdk)
    requires WellFormedBody(body, isUrl)
    requires Field(body, "aiProvider").Undefined? || Field(body, "aiProvider") == Str("")
    ensures ProviderFor(Validate(body, isUrl).value) == "gemini"
    ensures GenerateEmailRoute(body, isUrl, sdk).status == 200 <==>
      GeminiGenerate(Validate(body, isUrl).value, sdk).Success?
  {
    DefaultNameSelectsGemini();
  }

  lemma FacadeMessageIsNotGeneric(p: string)
    ensures "Error al generar el email con " + p + ". Verifica tu API key." != InternalError
  {
    var m := "Error al generar el email con " + p + ". Verifica tu API key.";
    assert m[6] == 'a';
    assert InternalError[6] == 'i';
  }

  /** The 500 branch never shows the generic text: every failure reaching
      the route is the façade's `Error`. */
  lemma ServerErrorIsFacadeMessage(body: Value, isUrl: string -> bool, sdk: Sdk)
    ensures GenerateEmailRoute(body, isUrl, sdk).status == 500 ==>
      GenerateEmailRoute(body, isUrl, sdk).body.message != InternalError
  {
    if Validate(body, isUrl).Success? {
      FacadeMessageIsNotGeneric(ProviderFor(Validate(body, isUrl).value));
    }
  }

  /** `GET /api/ai-providers`: always 200, one entry per registered
      provider, flagged from the environment. */
  function ProvidersRoute(env: map<string, string>): (res: HttpResponse)
    ensures res.status == 200 && res.body.ProvidersBody?
    ensures res.body.providers == AvailableProviders(env)
    ensures |res.body.providers| == 2
    ensures res.body.providers[0].available <==> KeySet(env, "GEMINI_API_KEY")
    ensures res.body.providers[1].available <==> KeySet(env, "OPENAI_API_KEY")
  {
    HttpResponse(200, ProvidersBody(AvailableProviders(env)))
  }
}
