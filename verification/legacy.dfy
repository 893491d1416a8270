/** The older single-provider generator (`server/services/gemini.ts`): its
    own prompt, an inline copy of the normalisation, and a catch-all that
    reports every failure as a Gemini key problem. */
module Legacy {
  import opened Wrappers
  import opened Js
  import opened Schema
  import opened Prompts
  import opened Normalise
  import opened Providers

  const EmptyModelReply := Error(PlainError, "Empty response from model")
  const LegacyFailure := Error(PlainError, "Error al generar el email. Verifica tu API key de Gemini.")

  /** The object literal the legacy generator returns, written out with its
      own default literals. */
  function LegacyNormalise(result: Value, includePreheader: bool): Result<EmailResponse, Exception> {
    match Get(result, "subject")
    case Failure(e) => Failure(e)
    case Success(subject) =>
      Success(EmailResponse(
        Or(subject, Str("Email generado")),
        if includePreheader then Field(result, "preheader") else Undefined,
        Or(Field(result, "body"), Str("Contenido del email")),
        Or(Field(result, "wordCount"), Num(0.0)),
        Or(Field(result, "readingTime"), Str("1 min")),
        Or(Field(result, "conversionScore"), Num(7.5))))
  }

  /** The inline copy agrees with the adapters' `formatResponse` on every
      reply, thrown errors included. */
  lemma LegacyNormaliseAgrees(result: Value, includePreheader: bool)
    ensures LegacyNormalise(result, includePreheader) == FormatResponse(result, includePreheader)
  {
  }

  /** The body of the `try` block, before the catch rewrites its failures. */
  function LegacyAttempt(r: Request, sdk: Sdk): Result<EmailResponse, Exception> {
    match sdk.gemini(LegacyPrompt(r))
    case Failure(e) => Failure(e)
    case Success(text) =>
      if text.None? || text.value == "" then Failure(EmptyModelReply)
      else match sdk.parse(text.value)
        case Failure(e) => Failure(e)
        case Success(v) => LegacyNormalise(v, r.includePreheader)
  }

  /** The legacy `generateEmail`: success passes through, and every failure,
      the empty-reply one included, becomes the same Gemini key message. */
  function LegacyGenerate(r: Request, sdk: Sdk): (res: Result<EmailResponse, Exception>)
    ensures res.Failure? <==> LegacyAttempt(r, sdk).Failure?
    ensures res.Failure? ==> res.error == LegacyFailure
    ensures res.Success? ==> res == LegacyAttempt(r, sdk)
  {
    match LegacyAttempt(r, sdk)
    case Failure(_) => Failure(LegacyFailure)
    case Success(e) => Success(e)
  }

  /** The internal "empty response" error never reaches the caller. */
  lemma LegacyEmptyReplyHidden(r: Request, sdk: Sdk)
    requires sdk.gemini(LegacyPrompt(r)) == Success(None) || sdk.gemini(LegacyPrompt(r)) == Success(Some(""))
    ensures LegacyAttempt(r, sdk) == Failure(EmptyModelReply)
    ensures LegacyGenerate(r, sdk) == Failure(LegacyFailure)
  {
  }

  /** Given the same reply to its own prompt, the legacy generator succeeds
      exactly when the Gemini adapter does (fed the same reply to the
      adapter's prompt), and with the same email. */
  lemma LegacyMatchesGeminiAdapter(r: Request, sdk: Sdk)
    requires sdk.gemini(LegacyPrompt(r)) == sdk.gemini(GeminiPrompt(r))
    ensures LegacyGenerate(r, sdk).Success? <==> GeminiGenerate(r, sdk).Success?
    ensures LegacyGenerate(r, sdk).Success? ==> LegacyGenerate(r, sdk) == GeminiGenerate(r, sdk)
  {
    match sdk.gemini(LegacyPrompt(r))
    case Failure(_) =>
    case Success(text) =>
      if text.Some? && text.value != "" {
        match sdk.parse(text.value)
        case Failure(_) =>
        case Success(v) => LegacyNormaliseAgrees(v, r.includePreheader);
      }
  }
}
