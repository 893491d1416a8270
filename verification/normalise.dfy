/** The adapters' `formatResponse`: turns a parsed reply into an email
    response, keeping truthy fields and replacing falsy ones with defaults,
    and surfacing the preheader only when the request asked for one. */
module Normalise {
  import opened Wrappers
  import opened Js
  import opened Schema

  const DefaultSubject := Str("Email generado")
  const DefaultBody := Str("Contenido del email")
  const DefaultWordCount := Num(0.0)
  const DefaultReadingTime := Str("1 min")
  const DefaultConversionScore := Num(7.5)

  /** `out` is `v` when `v` is truthy, and `default` otherwise. */
  predicate KeptOrDefaulted(v: Value, out: Value, default: Value) {
    (Truthy(v) ==> out == v) && (!Truthy(v) ==> out == default)
  }

  /** Reading `subject` from a `null` reply throws before anything else is read. */
  function FormatResponse(result: Value, includePreheader: bool): (r: Result<EmailResponse, Exception>)
    ensures r.Failure? <==> Nullish(result)
    ensures r.Failure? ==> r.error.Error? && r.error.kind == TypeError
    ensures r.Success? ==>
      && KeptOrDefaulted(Field(result, "subject"), r.value.subject, DefaultSubject)
      && KeptOrDefaulted(Field(result, "body"), r.value.body, DefaultBody)
      && KeptOrDefaulted(Field(result, "wordCount"), r.value.wordCount, DefaultWordCount)
      && KeptOrDefaulted(Field(result, "readingTime"), r.value.readingTime, DefaultReadingTime)
      && KeptOrDefaulted(Field(result, "conversionScore"), r.value.conversionScore, DefaultConversionScore)
    ensures r.Success? && includePreheader ==> r.value.preheader == Field(result, "preheader")
    ensures r.Success? && !includePreheader ==> r.value.preheader == Undefined
  {
    match Get(result, "subject")
    case Failure(e) => Failure(e)
    case Success(subject) =>
      Success(EmailResponse(
        Or(subject, DefaultSubject),
        if includePreheader then Field(result, "preheader") else Undefined,
        Or(Field(result, "body"), DefaultBody),
        Or(Field(result, "wordCount"), DefaultWordCount),
        Or(Field(result, "readingTime"), DefaultReadingTime),
        Or(Field(result, "conversionScore"), DefaultConversionScore)))
  }

  /** The response as the plain object the server serialises: an absent
      preheader is left out. */
  function AsObject(e: EmailResponse): Value {
    var always := map[
      "subject" := e.subject, "body" := e.body, "wordCount" := e.wordCount,
      "readingTime" := e.readingTime, "conversionScore" := e.conversionScore];
    Obj(if e.preheader.Undefined? then always else always["preheader" := e.preheader])
  }

  /** Every normalised response has a truthy subject, body, reading time
      and score, and a word count that is truthy or exactly 0. */
  lemma NormalisedIsComplete(result: Value, includePreheader: bool)
    requires FormatResponse(result, includePreheader).Success?
    ensures var e := FormatResponse(result, includePreheader).value;
      && Truthy(e.subject) && Truthy(e.body) && Truthy(e.readingTime) && Truthy(e.conversionScore)
      && (Truthy(e.wordCount) || e.wordCount == Num(0.0))
  {
  }

  /** Normalising is idempotent: the serialised form of a normalised
      response normalises back to the same response under the same flag. */
  lemma NormaliseIdempotent(result: Value, includePreheader: bool)
    requires FormatResponse(result, includePreheader).Success?
    ensures var e := FormatResponse(result, includePreheader).value;
      FormatResponse(AsObject(e), includePreheader) == Success(e)
  {
    var e := FormatResponse(result, includePreheader).value;
    var o := AsObject(e);
    assert Field(o, "subject") == e.subject;
    assert Field(o, "body") == e.body;
    assert Field(o, "wordCount") == e.wordCount;
    assert Field(o, "readingTime") == e.readingTime;
    assert Field(o, "conversionScore") == e.conversionScore;
    assert Field(o, "preheader") == e.preheader;
  }

  /** The normalised response has the shape the response schema describes
      exactly when each truthy field of the reply already has its declared
      type (and, when the preheader is surfaced, it is a string or absent). */
  lemma SchemaShapeIff(result: Value, includePreheader: bool)
    requires FormatResponse(result, includePreheader).Success?
    ensures MatchesResponseSchema(FormatResponse(result, includePreheader).value) <==>
      && (!Truthy(Field(result, "subject")) || Field(result, "subject").Str?)
      && (!Truthy(Field(result, "body")) || Field(result, "body").Str?)
      && (!Truthy(Field(result, "wordCount")) || Field(result, "wordCount").Num?)
      && (!Truthy(Field(result, "readingTime")) || Field(result, "readingTime").Str?)
      && (!Truthy(Field(result, "conversionScore")) || Field(result, "conversionScore").Num?)
      && (includePreheader ==> Field(result, "preheader").Undefined? || Field(result, "preheader").Str?)
  {
  }
}
