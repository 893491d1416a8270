/** The provider registry, the two SDK adapters and the `generateEmail`
    façade that wraps every failure in one user-facing message. */
module Providers {
  import opened Wrappers
  import opened Js
  import opened Strings
  import opened Schema
  import opened Prompts
  import opened Normalise

  datatype Kind = GeminiKind | OpenAIKind

  /** A registered provider: its display name and the environment variable
      that holds its API key. */
  datatype Provider = Provider(kind: Kind, name: string, requiresKey: string)

  const Gemini := Provider(GeminiKind, "Gemini", "GEMINI_API_KEY")
  const OpenAI := Provider(OpenAIKind, "OpenAI", "OPENAI_API_KEY")

  /** The manager's map, in insertion order. */
  const Registry: seq<(string, Provider)> := [("gemini", Gemini), ("openai", OpenAI)]

  /** The name `getProvider` and the façade use when none is given. */
  const DefaultProviderName := "gemini"

  /** `Map.prototype.get`: the entry registered under `key`, if any. */
  function Find(entries: seq<(string, Provider)>, key: string): (r: Option<Provider>)
    ensures r.None? <==> forall i :: 0 <= i < |entries| ==> entries[i].0 != key
    ensures r.Some? ==> exists i :: 0 <= i < |entries| && entries[i] == (key, r.value)
  {
    if |entries| == 0 then None
    else if entries[0].0 == key then Some(entries[0].1)
    else
      var rest := Find(entries[1..], key);
      assert forall i :: 1 <= i < |entries| ==> entries[i] == entries[1..][i - 1];
      rest
  }

  function NotFound(name: string): Exception {
    Error(PlainError, "AI provider '" + name + "' not found")
  }

  /** `getProvider`: looks the lower-cased name up in the registry; the
      error message quotes the name as given. */
  function GetProvider(name: string): (r: Result<Provider, Exception>)
    ensures r.Success? <==> Lower(name) == "gemini" || Lower(name) == "openai"
    ensures Lower(name) == "gemini" ==> r == Success(Gemini)
    ensures Lower(name) == "openai" ==> r == Success(OpenAI)
    ensures r.Failure? ==> r.error == NotFound(name)
  {
    assert Registry[0].0 == "gemini" && Registry[1].0 == "openai";
    match Find(Registry, Lower(name))
    case None => Failure(NotFound(name))
    case Some(p) => Success(p)
  }

  /** Names that differ only in ASCII letter case select the same provider. */
  lemma GetProviderIgnoresCase(a: string, b: string)
    requires Lower(a) == Lower(b)
    ensures GetProvider(a).Success? <==> GetProvider(b).Success?
    ensures GetProvider(a).Success? ==> GetProvider(a) == GetProvider(b)
  {
  }

  lemma DefaultNameSelectsGemini()
    ensures GetProvider(DefaultProviderName) == Success(Gemini)
  {
    assert Lower(DefaultProviderName) == "gemini";
  }

  /** Upper-case and capitalised spellings resolve to the same instances. */
  lemma CaseVariantsResolve()
    ensures GetProvider("GEMINI") == GetProvider("Gemini") == GetProvider("gemini") == Success(Gemini)
    ensures GetProvider("OPENAI") == GetProvider("OpenAI") == Success(OpenAI)
  {
    assert Lower("GEMINI") == "gemini";
    assert Lower("Gemini") == "gemini";
    assert Lower("gemini") == "gemini";
    assert Lower("OPENAI") == "openai";
    assert Lower("OpenAI") == "openai";
  }

  /** One entry of `getAvailableProviders`. */
  datatype Descriptor = Descriptor(name: string, key: string, available: bool)

  /** `!!process.env[key]`: the variable is set to a non-empty string. */
  predicate KeySet(env: map<string, string>, key: string) {
    key in env && env[key] != ""
  }

  function Describe(entries: seq<(string, Provider)>, env: map<string, string>): (r: seq<Descriptor>)
    ensures |r| == |entries|
    ensures forall i :: 0 <= i < |entries| ==>
      r[i].name == entries[i].1.name && r[i].key == entries[i].1.requiresKey
    ensures forall i :: 0 <= i < |entries| ==> (r[i].available <==> KeySet(env, entries[i].1.requiresKey))
  {
    if |entries| == 0 then []
    else
      var p := entries[0].1;
      [Descriptor(p.name, p.requiresKey, KeySet(env, p.requiresKey))] + Describe(entries[1..], env)
  }

  /** `getAvailableProviders`: every registered provider, in registration
      order, flagged available when its key variable is set. */
  function AvailableProviders(env: map<string, string>): (r: seq<Descriptor>)
    ensures |r| == 2
    ensures r[0].name == "Gemini" && r[0].key == "GEMINI_API_KEY"
    ensures r[1].name == "OpenAI" && r[1].key == "OPENAI_API_KEY"
    ensures r[0].available <==> KeySet(env, "GEMINI_API_KEY")
    ensures r[1].available <==> KeySet(env, "OPENAI_API_KEY")
  {
    Describe(Registry, env)
  }

  /** With no keys configured every provider is listed, none available. */
  lemma NothingAvailableWithoutKeys(env: map<string, string>)
    requires forall k :: k in env ==> env[k] == ""
    ensures forall d :: d in AvailableProviders(env) ==> !d.available
  {
    var r := AvailableProviders(env);
    forall d | d in r
      ensures !d.available
    {
      var i :| 0 <= i < |r| && r[i] == d;
    }
  }

  /** Availability is only a flag: every listed name selects a provider. */
  lemma ListedNamesResolve(env: map<string, string>)
    ensures forall d :: d in AvailableProviders(env) ==> GetProvider(d.name).Success?
  {
    var r := AvailableProviders(env);
    assert Lower("Gemini") == "gemini";
    assert Lower("OpenAI") == "openai";
    forall d | d in r
      ensures GetProvider(d.name).Success?
    {
      var i :| 0 <= i < |r| && r[i] == d;
    }
  }

  /** The outside world an adapter talks to: the two SDK calls (a reply's
      text or the completion choices' contents, or a thrown error) and
      `JSON.parse`. */
  datatype Sdk = Sdk(
    gemini: string -> Result<Option<string>, Exception>,
    openai: (string, string) -> Result<seq<Option<string>>, Exception>,
    parse: string -> Result<Value, Exception>)

  const EmptyGeminiReply := Error(PlainError, "Empty response from Gemini")

  /** The Gemini adapter after the SDK call: an absent or empty text throws;
      otherwise the parsed text is normalised. */
  function ReadGeminiReply(text: Option<string>, sdk: Sdk, includePreheader: bool): (r: Result<EmailResponse, Exception>)
    ensures (text.None? || text.value == "") ==> r == Failure(EmptyGeminiReply)
    ensures r.Success? ==>
      (text.Some? && sdk.parse(text.value).Success? &&
       FormatResponse(sdk.parse(text.value).value, includePreheader) == r)
    ensures text.Some? && text.value != "" && sdk.parse(text.value).Success? ==>
      r == FormatResponse(sdk.parse(text.value).value, includePreheader)
    ensures text.Some? && text.value != "" && sdk.parse(text.value).Failure? ==>
      r == Failure(sdk.parse(text.value).error)
  {
    if text.None? || text.value == "" then Failure(EmptyGeminiReply)
    else match sdk.parse(text.value)
      case Failure(e) => Failure(e)
      case Success(v) => FormatResponse(v, includePreheader)
  }

  function GeminiGenerate(r: Request, sdk: Sdk): Result<EmailResponse, Exception> {
    match sdk.gemini(GeminiPrompt(r))
    case Failure(e) => Failure(e)
    case Success(text) => ReadGeminiReply(text, sdk, r.includePreheader)
  }

  /** The text the OpenAI adapter parses: a falsy content becomes `"{}"`. */
  function ContentOrEmpty(content: Option<string>): (t: string)
    ensures content.Some? && content.value != "" ==> t == content.value
    ensures content.None? || content.value == "" ==> t == "{}"
  {
    if content.None? || content.value == "" then "{}" else content.value
  }

  /** The OpenAI adapter after the SDK call: with no choices, reading
      `message` of `choices[0]` throws a TypeError. */
  function ReadOpenAIReply(choices: seq<Option<string>>, sdk: Sdk, includePreheader: bool): (r: Result<EmailResponse, Exception>)
    ensures |choices| == 0 ==> r.Failure? && r.error.Error? && r.error.kind == TypeError
    ensures r.Success? ==>
      (|choices| > 0 && sdk.parse(ContentOrEmpty(choices[0])).Success? &&
       FormatResponse(sdk.parse(ContentOrEmpty(choices[0])).value, includePreheader) == r)
    ensures |choices| > 0 && sdk.parse(ContentOrEmpty(choices[0])).Success? ==>
      r == FormatResponse(sdk.parse(ContentOrEmpty(choices[0])).value, includePreheader)
    ensures |choices| > 0 && sdk.parse(ContentOrEmpty(choices[0])).Failure? ==>
      r == Failure(sdk.parse(ContentOrEmpty(choices[0])).error)
  {
    if |choices| == 0 then
      match Get(Undefined, "message")
      case Failure(e) => Failure(e)
      case Success(_) => Failure(NonError(Undefined))
    else match sdk.parse(ContentOrEmpty(choices[0]))
      case Failure(e) => Failure(e)
      case Success(v) => FormatResponse(v, includePreheader)
  }

  function OpenAIGenerate(r: Request, sdk: Sdk): Result<EmailResponse, Exception> {
    match sdk.openai(OpenAIPrompt(r), OpenAIUserMessage(r))
    case Failure(e) => Failure(e)
    case Success(choices) => ReadOpenAIReply(choices, sdk, r.includePreheader)
  }

  function Generate(p: Provider, r: Request, sdk: Sdk): Result<EmailResponse, Exception> {
    match p.kind
    case GeminiKind => GeminiGenerate(r, sdk)
    case OpenAIKind => OpenAIGenerate(r, sdk)
  }

  /** The text an adapter hands to `JSON.parse`, when its SDK call
      returned one: Gemini's non-empty reply text, or OpenAI's first content
      with a falsy one read as `"{}"`. */
  function ParsedText(p: Provider, r: Request, sdk: Sdk): Option<string> {
    match p.kind
    case GeminiKind =>
      var reply := sdk.gemini(GeminiPrompt(r));
      if reply.Success? && reply.value.Some? && reply.value.value != "" then Some(reply.value.value) else None
    case OpenAIKind =>
      var reply := sdk.openai(OpenAIPrompt(r), OpenAIUserMessage(r));
      if reply.Success? && |reply.value| > 0 then Some(ContentOrEmpty(reply.value[0])) else None
  }

  /** An adapter returns an email exactly when its SDK call yields a text
      that parses to something other than `null`, and that email is the
      normalisation of the parsed value: it never makes a response up, never
      drops a good reply, and drops the preheader when the request did not
      ask for one. */
  lemma AdapterOutputIsNormalised(p: Provider, r: Request, sdk: Sdk)
    ensures Generate(p, r, sdk).Success? <==>
      (ParsedText(p, r, sdk).Some? && sdk.parse(ParsedText(p, r, sdk).value).Success? &&
       !Nullish(sdk.parse(ParsedText(p, r, sdk).value).value))
    ensures Generate(p, r, sdk).Success? ==>
      Generate(p, r, sdk) == FormatResponse(sdk.parse(ParsedText(p, r, sdk).value).value, r.includePreheader)
    ensures Generate(p, r, sdk).Success? && !r.includePreheader ==> Generate(p, r, sdk).value.preheader == Undefined
  {
  }

  /** The response every field of which is the default. */
  const AllDefaults := EmailResponse(
    DefaultSubject, Undefined, DefaultBody, DefaultWordCount, DefaultReadingTime, DefaultConversionScore)

  /** A `null` message content from OpenAI is read as `{}`, which yields a
      response made of defaults only, preheader absent. */
  lemma OpenAINullContentGivesDefaults(r: Request, sdk: Sdk)
    requires sdk.parse("{}") == Success(Obj(map[]))
    requires sdk.openai(OpenAIPrompt(r), OpenAIUserMessage(r)).Success?
    requires var choices := sdk.openai(OpenAIPrompt(r), OpenAIUserMessage(r)).value;
      |choices| > 0 && choices[0].None?
    ensures OpenAIGenerate(r, sdk) == Success(AllDefaults)
  {
    var choices := sdk.openai(OpenAIPrompt(r), OpenAIUserMessage(r)).value;
    assert ContentOrEmpty(choices[0]) == "{}";
    var e := FormatResponse(Obj(map[]), r.includePreheader).value;
    assert Field(Obj(map[]), "preheader") == Undefined;
  }

  /** Gemini answering with no text is an error, never a defaulted email. */
  lemma GeminiEmptyTextFails(r: Request, sdk: Sdk)
    requires sdk.gemini(GeminiPrompt(r)) == Success(None) || sdk.gemini(GeminiPrompt(r)) == Success(Some(""))
    ensures GeminiGenerate(r, sdk) == Failure(EmptyGeminiReply)
  {
  }

  function FacadeFailure(provider: string): Exception {
    Error(PlainError, "Error al generar el email con " + provider + ". Verifica tu API key.")
  }

  /** The exported `generateEmail`: resolves the provider and runs its
      adapter; any failure on the way, an unknown provider included, is
      replaced by one message naming the provider as given. */
  function GenerateEmail(r: Request, provider: string, sdk: Sdk): (res: Result<EmailResponse, Exception>)
    ensures res.Failure? ==> res.error == FacadeFailure(provider)
    ensures res.Success? <==>
      GetProvider(provider).Success? && Generate(GetProvider(provider).value, r, sdk).Success?
    ensures res.Success? ==> res == Generate(GetProvider(provider).value, r, sdk)
  {
    match GetProvider(provider)
    case Failure(_) => Failure(FacadeFailure(provider))
    case Success(p) =>
      match Generate(p, r, sdk)
      case Failure(_) => Failure(FacadeFailure(provider))
      case Success(e) => Success(e)
  }

  /** An unknown provider fails like an adapter error: the caller sees only
      the API-key message, never "not found". */
  lemma UnknownProviderLooksLikeKeyError(r: Request, provider: string, sdk: Sdk)
    requires Lower(provider) != "gemini" && Lower(provider) != "openai"
    ensures GenerateEmail(r, provider, sdk) == Failure(FacadeFailure(provider))
  {
  }

  /** The façade is case-insensitive in what it produces; only the name
      quoted in a failure keeps the caller's spelling. */
  lemma GenerateEmailIgnoresCase(r: Request, a: string, b: string, sdk: Sdk)
    requires Lower(a) == Lower(b)
    ensures GenerateEmail(r, a, sdk).Success? <==> GenerateEmail(r, b, sdk).Success?
    ensures GenerateEmail(r, a, sdk).Success? ==> GenerateEmail(r, a, sdk) == GenerateEmail(r, b, sdk)
  {
    GetProviderIgnoresCase(a, b);
  }
}
