/** The instruction prompts the generators send: the Gemini adapter's, the
    OpenAI adapter's system prompt and user message, and the legacy Gemini
    generator's. Each is the concatenation of a fixed list of segments, so
    that what a field contributes can be located in the result. */
module Prompts {
  import opened Wrappers
  import opened Strings
  import opened Schema

  const Intro := "Eres un copywriter profesional experto en redacción persuasiva y técnicas de conversión. "
  const StylePrefix := "Adopta el estilo de: "
  const GenericPersona := "Usa " + "técnicas de copywriting profesional general."
  const AvoidPrefix := "- EVITA: "

  /** The persona styles both adapters declare (identical in the two). */
  const AdapterStyles: map<string, string> := map[
    "dan-kennedy" := "Usa un estilo directo, agresivo y sin rodeos. Crea urgencia y presión.",
    "gary-halbert" := "Enfócate en storytelling emocional. Usa historias personales y conecta emocionalmente.",
    "david-ogilvy" := "Mantén un tono elegante, sofisticado y persuasivo. Usa datos y hechos.",
    "joe-sugarman" := "Aplica psicología del consumidor. Usa triggers psicológicos y curiosidad.",
    "russell-brunson" := "Estilo de marketing digital moderno. Usa fórmulas probadas y calls-to-action claros."]

  /** The Gemini adapter's email-type descriptions. */
  const GeminiEmailTypes: map<string, string> := map[
    "promocional" := "Email promocional para ofertas y descuentos",
    "bienvenida" := "Email de bienvenida para nuevos suscriptores",
    "abandono-carrito" := "Email para recuperar carritos abandonados",
    "reactivacion" := "Email para reactivar clientes inactivos",
    "newsletter" := "Newsletter informativo con valor agregado",
    "lanzamiento" := "Email de lanzamiento de nuevo producto"]

  /** The OpenAI adapter's copy of the table, which spells "suscriptors". */
  const OpenAIEmailTypes: map<string, string> := map[
    "promocional" := "Email promocional para ofertas y descuentos",
    "bienvenida" := "Email de bienvenida para nuevos suscriptors",
    "abandono-carrito" := "Email para recuperar carritos abandonados",
    "reactivacion" := "Email para reactivar clientes inactivos",
    "newsletter" := "Newsletter informativo con valor agregado",
    "lanzamiento" := "Email de lanzamiento de nuevo producto"]

  /** The legacy generator's persona styles: longer sentences than the adapters'. */
  const LegacyStyles: map<string, string> := map[
    "dan-kennedy" := "Usa un estilo directo, agresivo y sin rodeos. Crea urgencia y presión. Habla directo al dolor del cliente.",
    "gary-halbert" := "Enfócate en storytelling emocional. Usa historias personales y conecta emocionalmente. Estilo conversacional.",
    "david-ogilvy" := "Mantén un tono elegante, sofisticado y persuasivo. Usa datos y hechos. Estilo refinado pero accesible.",
    "joe-sugarman" := "Aplica psicología del consumidor. Usa triggers psicológicos y curiosidad. Flujo lógico de ideas.",
    "russell-brunson" := "Estilo de marketing digital moderno. Usa fórmulas probadas y calls-to-action claros. Enfoque en valor."]

  /** The legacy generator's email-type table. */
  const LegacyEmailTypes: map<string, string> := map[
    "promocional" := "Email promocional para ofertas y descuentos",
    "bienvenida" := "Email de bienvenida para nuevos suscriptores",
    "abandono-carrito" := "Email para recuperar carritos abandonados",
    "reactivacion" := "Email para reactivar clientes inactivos",
    "newsletter" := "Newsletter informativo con valor agregado",
    "lanzamiento" := "Email de lanzamiento de nuevo producto"]

  const ChecklistHead :=
    "\n\nEl email debe:\n1. Captar la atención desde el asunto\n2. Crear conexión emocional\n3. Presentar el valor del producto\n"
  const LinkItem := "4. Incluir call-to-action persuasivo con link: "
  const LinklessItem := "4. Incluir call-to-action persuasivo"
  const UrgencyItem := "\n5. Generar urgencia cuando sea apropiado\n\n"
  const OpenAIChecklist :=
    "\n\nEl email debe incluir call-to-action persuasivo y generar urgencia cuando sea apropiado.\n\n"
  const TypeClauseOpen := "\n\nDebes crear un email "
  const TypeClauseClose := " con las siguientes características:\n"

  const ResponseShape :=
    "Responde en formato JSON con esta estructura exacta:\n{\n"
    + "  \"subject\": \"Asunto llamativo y persuasivo\",\n"
    + "  \"preheader\": \"Texto del preencabezado que complemente el asunto\",\n"
    + "  \"body\": \"Cuerpo completo del email en HTML limpio con párrafos <p>, encabezados <h3> si es necesario, y call-to-action destacado\",\n"
    + "  \"wordCount\": número_de_palabras,\n"
    + "  \"readingTime\": \"X min\",\n"
    + "  \"conversionScore\": puntuación_del_1_al_10\n"
    + "}"

  const LinkRequest := "Genera un email profesional con link: "

  /** Indexing a table object: a key it lacks interpolates as "undefined". */
  function Lookup(table: map<string, string>, key: string): string {
    if key in table then table[key] else "undefined"
  }

  predicate IsTruthy(s: Option<string>) {
    s.Some? && s.value != ""
  }

  /** The adapters style the prompt only for a truthy profile other than "general". */
  predicate StyleApplies(profile: Option<string>) {
    IsTruthy(profile) && profile.value != "general"
  }

  function AdapterPersona(profile: Option<string>): string {
    if StyleApplies(profile) then StylePrefix + Lookup(AdapterStyles, profile.value) else GenericPersona
  }

  /** The legacy generator styles the prompt for any truthy profile. */
  function LegacyPersona(profile: Option<string>): string {
    if IsTruthy(profile) then StylePrefix + Lookup(LegacyStyles, profile.value) else GenericPersona
  }

  function AvoidLine(avoid: Option<string>): string {
    if IsTruthy(avoid) then AvoidPrefix + avoid.value else ""
  }

  const AvoidIndex := 18

  /** The segments every prompt shares: role, persona, email type, the four
      descriptive fields and the optional avoid line (segment `AvoidIndex`). */
  function Characteristics(persona: string, typeText: string, r: Request): (parts: seq<string>)
    ensures |parts| == AvoidIndex + 1
  {
    [Intro, "\n", persona,
     TypeClauseOpen, typeText, TypeClauseClose,
     "- Tono: ", r.clientTone, "\n",
     "- Producto: ", r.productName, "\n",
     "- Descripción: ", r.productDescription, "\n",
     "- Audiencia: ", r.targetAudience, "\n",
     AvoidLine(r.elementsToAvoid)]
  }

  /** The Gemini checklist names the link in item 4; the reply shape follows. */
  function GeminiTail(link: string): seq<string> {
    [ChecklistHead, LinkItem, link, UrgencyItem, ResponseShape]
  }

  const OpenAITail: seq<string> := [OpenAIChecklist, ResponseShape]

  /** The legacy checklist omits the link; the link request closes the prompt. */
  function LegacyTail(link: string): seq<string> {
    [ChecklistHead, LinklessItem, UrgencyItem, ResponseShape, "\n\n", LinkRequest, link]
  }

  function GeminiParts(r: Request): seq<string> {
    Characteristics(AdapterPersona(r.copywriterProfile), Lookup(GeminiEmailTypes, r.emailType), r)
    + GeminiTail(r.productLink)
  }

  function OpenAIParts(r: Request): seq<string> {
    Characteristics(AdapterPersona(r.copywriterProfile), Lookup(OpenAIEmailTypes, r.emailType), r)
    + OpenAITail
  }

  function LegacyParts(r: Request): seq<string> {
    Characteristics(LegacyPersona(r.copywriterProfile), Lookup(LegacyEmailTypes, r.emailType), r)
    + LegacyTail(r.productLink)
  }

  /** The Gemini adapter's `buildSystemPrompt`. */
  function GeminiPrompt(r: Request): string {
    Concat(GeminiParts(r))
  }

  /** The OpenAI adapter's `buildSystemPrompt` (its system message). */
  function OpenAIPrompt(r: Request): string {
    Concat(OpenAIParts(r))
  }

  /** The user message the OpenAI adapter sends beside its system prompt. */
  function OpenAIUserMessage(r: Request): string {
    LinkRequest + r.productLink
  }

  /** The prompt of the legacy Gemini-only generator. */
  function LegacyPrompt(r: Request): string {
    Concat(LegacyParts(r))
  }

  /** The request without an avoid clause. */
  function WithoutAvoid(r: Request): Request {
    r.(elementsToAvoid := None)
  }

  lemma ConcatTwo(parts: seq<string>)
    requires |parts| == 2
    ensures Concat(parts) == parts[0] + parts[1]
  {
    assert parts[1..] == [parts[1]];
    assert Concat(parts[1..]) == parts[1] + Concat([]);
  }

  lemma ConcatThree(parts: seq<string>)
    requires |parts| == 3
    ensures Concat(parts) == parts[0] + parts[1] + parts[2]
  {
    ConcatTwo(parts[1..]);
  }

  lemma ConcatFour(parts: seq<string>)
    requires |parts| == 4
    ensures Concat(parts) == parts[0] + parts[1] + parts[2] + parts[3]
  {
    ConcatThree(parts[1..]);
  }

  lemma PrefixOfPrefix(a: string, b: string, s: string)
    requires IsPrefix(a + b, s)
    ensures IsPrefix(a, s)
  {
    assert s[..|a|] == (a + b)[..|a|];
  }

  /** A run of segments, spelled out, occurs in the concatenation. */
  lemma RunOfTwo(parts: seq<string>, i: int)
    requires 0 <= i && i + 2 <= |parts|
    ensures Contains(Concat(parts), parts[i] + parts[i + 1])
  {
    ConcatContainsRun(parts, i, i + 2);
    ConcatTwo(parts[i..i + 2]);
  }

  lemma RunOfThree(parts: seq<string>, i: int)
    requires 0 <= i && i + 3 <= |parts|
    ensures Contains(Concat(parts), parts[i] + parts[i + 1] + parts[i + 2])
  {
    ConcatContainsRun(parts, i, i + 3);
    ConcatThree(parts[i..i + 3]);
  }

  /** What the shared segments put into any prompt built from them: the
      persona line right after the role line, the email-type clause, each
      descriptive field behind its label, and the avoid line when present. */
  lemma CharacteristicsCarried(persona: string, typeText: string, r: Request, tail: seq<string>)
    ensures IsPrefix(Intro + "\n" + persona + TypeClauseOpen, Concat(Characteristics(persona, typeText, r) + tail))
    ensures Contains(Concat(Characteristics(persona, typeText, r) + tail), TypeClauseOpen + typeText + TypeClauseClose)
    ensures Contains(Concat(Characteristics(persona, typeText, r) + tail), "- Tono: " + r.clientTone + "\n")
    ensures Contains(Concat(Characteristics(persona, typeText, r) + tail), "- Producto: " + r.productName + "\n")
    ensures Contains(Concat(Characteristics(persona, typeText, r) + tail), "- Descripción: " + r.productDescription + "\n")
    ensures Contains(Concat(Characteristics(persona, typeText, r) + tail), "- Audiencia: " + r.targetAudience + "\n")
    ensures IsTruthy(r.elementsToAvoid) ==>
      Contains(Concat(Characteristics(persona, typeText, r) + tail), AvoidPrefix + r.elementsToAvoid.value)
  {
    var parts := Characteristics(persona, typeText, r) + tail;
    ConcatPrefix(parts, 4);
    ConcatFour(parts[..4]);
    RunOfThree(parts, 3);
    RunOfThree(parts, 6);
    RunOfThree(parts, 9);
    RunOfThree(parts, 12);
    RunOfThree(parts, 15);
    ConcatContainsPart(parts, AvoidIndex);
  }

  /** The persona line decides whether the prompt continues "Adopta el
      estilo de: " after the role line. */
  lemma StyledIff(x: string, styled: bool, s: string)
    requires IsPrefix(Intro + "\n" + (if styled then StylePrefix + x else GenericPersona) + TypeClauseOpen, s)
    ensures IsPrefix(Intro + "\n" + StylePrefix, s) <==> styled
  {
    var line := if styled then StylePrefix + x else GenericPersona;
    PrefixOfPrefix(Intro + "\n" + line, TypeClauseOpen, s);
    var k := |Intro| + 1;
    assert s[k] == (Intro + "\n" + line)[k] == line[0];
    if styled {
      assert Intro + "\n" + line == Intro + "\n" + StylePrefix + x;
      PrefixOfPrefix(Intro + "\n" + StylePrefix, x, s);
    } else {
      assert GenericPersona[0] == 'U';
      assert StylePrefix[0] == 'A';
      assert (Intro + "\n" + StylePrefix)[k] == StylePrefix[0];
    }
  }

  /** Filling the avoid segment inserts the "- EVITA: " line and changes
      nothing else; an empty avoid segment leaves the prompt as it is without one. */
  lemma AvoidFilled(persona: string, typeText: string, r: Request, tail: seq<string>)
    ensures IsTruthy(r.elementsToAvoid) ==>
      exists at :: InsertedAt(Concat(Characteristics(persona, typeText, r) + tail),
                              Concat(Characteristics(persona, typeText, WithoutAvoid(r)) + tail),
                              AvoidPrefix + r.elementsToAvoid.value, at)
    ensures !IsTruthy(r.elementsToAvoid) ==>
      Concat(Characteristics(persona, typeText, r) + tail) == Concat(Characteristics(persona, typeText, WithoutAvoid(r)) + tail)
  {
    var parts := Characteristics(persona, typeText, WithoutAvoid(r)) + tail;
    if IsTruthy(r.elementsToAvoid) {
      var line := AvoidLine(r.elementsToAvoid);
      assert line == AvoidPrefix + r.elementsToAvoid.value;
      assert parts[AvoidIndex := line] == Characteristics(persona, typeText, r) + tail;
      ConcatFill(parts, AvoidIndex, line);
      var at := |Concat(parts[..AvoidIndex])|;
      var full := Concat(Characteristics(persona, typeText, r) + tail);
      var bare := Concat(Characteristics(persona, typeText, WithoutAvoid(r)) + tail);
      assert InsertedAt(full, bare, AvoidPrefix + r.elementsToAvoid.value, at);
    } else {
      assert parts == Characteristics(persona, typeText, r) + tail;
    }
  }

  /** The Gemini adapter's prompt: the persona line right after the role
      line, its own email-type text, every descriptive field behind its
      label, the avoid line when `elementsToAvoid` is truthy, and the product
      link in checklist item 4. */
  lemma GeminiPromptContents(r: Request)
    ensures IsPrefix(Intro + "\n" + AdapterPersona(r.copywriterProfile) + TypeClauseOpen, GeminiPrompt(r))
    ensures Contains(GeminiPrompt(r), TypeClauseOpen + Lookup(GeminiEmailTypes, r.emailType) + TypeClauseClose)
    ensures Contains(GeminiPrompt(r), "- Tono: " + r.clientTone + "\n")
    ensures Contains(GeminiPrompt(r), "- Producto: " + r.productName + "\n")
    ensures Contains(GeminiPrompt(r), "- Descripción: " + r.productDescription + "\n")
    ensures Contains(GeminiPrompt(r), "- Audiencia: " + r.targetAudience + "\n")
    ensures IsTruthy(r.elementsToAvoid) ==> Contains(GeminiPrompt(r), AvoidPrefix + r.elementsToAvoid.value)
    ensures Contains(GeminiPrompt(r), LinkItem + r.productLink + UrgencyItem)
  {
    var persona := AdapterPersona(r.copywriterProfile);
    CharacteristicsCarried(persona, Lookup(GeminiEmailTypes, r.emailType), r, GeminiTail(r.productLink));
    RunOfThree(GeminiParts(r), AvoidIndex + 2);
  }

  /** The OpenAI adapter's system prompt: the same persona rule, its own
      email-type text, the same fields and avoid line, and no trace of the
      product link: changing the link leaves it unchanged, and the link
      travels only in the user message. */
  lemma OpenAIPromptContents(r: Request, otherLink: string)
    ensures IsPrefix(Intro + "\n" + AdapterPersona(r.copywriterProfile) + TypeClauseOpen, OpenAIPrompt(r))
    ensures Contains(OpenAIPrompt(r), TypeClauseOpen + Lookup(OpenAIEmailTypes, r.emailType) + TypeClauseClose)
    ensures Contains(OpenAIPrompt(r), "- Tono: " + r.clientTone + "\n")
    ensures Contains(OpenAIPrompt(r), "- Producto: " + r.productName + "\n")
    ensures Contains(OpenAIPrompt(r), "- Descripción: " + r.productDescription + "\n")
    ensures Contains(OpenAIPrompt(r), "- Audiencia: " + r.targetAudience + "\n")
    ensures IsTruthy(r.elementsToAvoid) ==> Contains(OpenAIPrompt(r), AvoidPrefix + r.elementsToAvoid.value)
    ensures OpenAIPrompt(r.(productLink := otherLink)) == OpenAIPrompt(r)
    ensures IsSuffix(r.productLink, OpenAIUserMessage(r))
  {
    var persona := AdapterPersona(r.copywriterProfile);
    CharacteristicsCarried(persona, Lookup(OpenAIEmailTypes, r.emailType), r, OpenAITail);
  }

  /** The legacy prompt: its own persona and type tables, the same fields
      and avoid line, checklist item 4 without the link; it ends with the
      link request, and the link appears only there. */
  lemma LegacyPromptContents(r: Request)
    ensures IsPrefix(Intro + "\n" + LegacyPersona(r.copywriterProfile) + TypeClauseOpen, LegacyPrompt(r))
    ensures Contains(LegacyPrompt(r), TypeClauseOpen + Lookup(LegacyEmailTypes, r.emailType) + TypeClauseClose)
    ensures Contains(LegacyPrompt(r), "- Tono: " + r.clientTone + "\n")
    ensures Contains(LegacyPrompt(r), "- Producto: " + r.productName + "\n")
    ensures Contains(LegacyPrompt(r), "- Descripción: " + r.productDescription + "\n")
    ensures Contains(LegacyPrompt(r), "- Audiencia: " + r.targetAudience + "\n")
    ensures IsTruthy(r.elementsToAvoid) ==> Contains(LegacyPrompt(r), AvoidPrefix + r.elementsToAvoid.value)
    ensures Contains(LegacyPrompt(r), LinklessItem + UrgencyItem)
    ensures IsSuffix(LinkRequest + r.productLink, LegacyPrompt(r))
    ensures LegacyPrompt(r) == LegacyPrompt(r.(productLink := "")) + r.productLink
  {
    CharacteristicsCarried(LegacyPersona(r.copywriterProfile), Lookup(LegacyEmailTypes, r.emailType), r, LegacyTail(r.productLink));
    LegacyChecklist(r);
    LegacyLinkAppended(r);
  }

  /** The legacy checklist and closing link request. */
  lemma LegacyChecklist(r: Request)
    ensures Contains(LegacyPrompt(r), LinklessItem + UrgencyItem)
    ensures IsSuffix(LinkRequest + r.productLink, LegacyPrompt(r))
  {
    var parts := LegacyParts(r);
    RunOfTwo(parts, AvoidIndex + 2);
    ConcatSuffix(parts, |parts| - 2);
    ConcatTwo(parts[|parts| - 2..]);
  }

  /** The product link is the legacy prompt's last segment. */
  lemma LegacyLinkAppended(r: Request)
    ensures LegacyPrompt(r) == LegacyPrompt(r.(productLink := "")) + r.productLink
  {
    var parts := LegacyParts(r);
    var lead := parts[..|parts| - 1];
    assert parts == lead + [r.productLink];
    assert LegacyParts(r.(productLink := "")) == lead + [""];
    ConcatAppend(lead, [r.productLink]);
    ConcatAppend(lead, [""]);
    assert Concat([r.productLink]) == r.productLink + Concat([]);
    assert Concat([""]) == "" + Concat([]);
  }

  /** Whether the prompt continues "Adopta el estilo de: " after the role
      line: for the adapters iff the profile is truthy and not "general", for
      the legacy builder iff it is truthy. */
  lemma PersonaStyledIff(r: Request)
    ensures IsPrefix(Intro + "\n" + StylePrefix, GeminiPrompt(r)) <==> StyleApplies(r.copywriterProfile)
    ensures IsPrefix(Intro + "\n" + StylePrefix, OpenAIPrompt(r)) <==> StyleApplies(r.copywriterProfile)
    ensures IsPrefix(Intro + "\n" + StylePrefix, LegacyPrompt(r)) <==> IsTruthy(r.copywriterProfile)
  {
    var p := r.copywriterProfile;
    GeminiPromptContents(r);
    OpenAIPromptContents(r, r.productLink);
    LegacyPromptContents(r);
    StyledIff(if StyleApplies(p) then Lookup(AdapterStyles, p.value) else "", StyleApplies(p), GeminiPrompt(r));
    StyledIff(if StyleApplies(p) then Lookup(AdapterStyles, p.value) else "", StyleApplies(p), OpenAIPrompt(r));
    StyledIff(if IsTruthy(p) then Lookup(LegacyStyles, p.value) else "", IsTruthy(p), LegacyPrompt(r));
  }

  /** Each of the three prompts shows the avoid line only for a truthy
      `elementsToAvoid`: otherwise it equals the prompt without the field, and
      with it, that prompt with "- EVITA: " and the text inserted. */
  lemma AvoidLineOnlyWhenTruthy(r: Request)
    ensures IsTruthy(r.elementsToAvoid) ==>
      exists at :: InsertedAt(GeminiPrompt(r), GeminiPrompt(WithoutAvoid(r)), AvoidPrefix + r.elementsToAvoid.value, at)
    ensures IsTruthy(r.elementsToAvoid) ==>
      exists at :: InsertedAt(OpenAIPrompt(r), OpenAIPrompt(WithoutAvoid(r)), AvoidPrefix + r.elementsToAvoid.value, at)
    ensures IsTruthy(r.elementsToAvoid) ==>
      exists at :: InsertedAt(LegacyPrompt(r), LegacyPrompt(WithoutAvoid(r)), AvoidPrefix + r.elementsToAvoid.value, at)
    ensures !IsTruthy(r.elementsToAvoid) ==>
      && GeminiPrompt(r) == GeminiPrompt(WithoutAvoid(r))
      && OpenAIPrompt(r) == OpenAIPrompt(WithoutAvoid(r))
      && LegacyPrompt(r) == LegacyPrompt(WithoutAvoid(r))
  {
    var w := WithoutAvoid(r);
    var adapter, legacy := AdapterPersona(r.copywriterProfile), LegacyPersona(r.copywriterProfile);
    var gt, ot, lt := Lookup(GeminiEmailTypes, r.emailType), Lookup(OpenAIEmailTypes, r.emailType), Lookup(LegacyEmailTypes, r.emailType);
    assert GeminiParts(w) == Characteristics(adapter, gt, w) + GeminiTail(r.productLink);
    assert OpenAIParts(w) == Characteristics(adapter, ot, w) + OpenAITail;
    assert LegacyParts(w) == Characteristics(legacy, lt, w) + LegacyTail(r.productLink);
    AvoidFilled(adapter, gt, r, GeminiTail(r.productLink));
    AvoidFilled(adapter, ot, r, OpenAITail);
    AvoidFilled(legacy, lt, r, LegacyTail(r.productLink));
    if IsTruthy(r.elementsToAvoid) {
      var line := AvoidPrefix + r.elementsToAvoid.value;
      var g :| InsertedAt(Concat(Characteristics(adapter, gt, r) + GeminiTail(r.productLink)),
                          Concat(Characteristics(adapter, gt, w) + GeminiTail(r.productLink)), line, g);
      assert InsertedAt(GeminiPrompt(r), GeminiPrompt(w), line, g);
      var o :| InsertedAt(Concat(Characteristics(adapter, ot, r) + OpenAITail),
                          Concat(Characteristics(adapter, ot, w) + OpenAITail), line, o);
      assert InsertedAt(OpenAIPrompt(r), OpenAIPrompt(w), line, o);
      var l :| InsertedAt(Concat(Characteristics(legacy, lt, r) + LegacyTail(r.productLink)),
                          Concat(Characteristics(legacy, lt, w) + LegacyTail(r.productLink)), line, l);
      assert InsertedAt(LegacyPrompt(r), LegacyPrompt(w), line, l);
    }
  }

  /** An email type missing from the tables is not rejected: every prompt
      interpolates it as "undefined". */
  lemma MissingTypePrintsUndefined(r: Request)
    requires r.emailType !in GeminiEmailTypes
    ensures Contains(GeminiPrompt(r), TypeClauseOpen + "undefined" + TypeClauseClose)
    ensures Contains(OpenAIPrompt(r), TypeClauseOpen + "undefined" + TypeClauseClose)
    ensures Contains(LegacyPrompt(r), TypeClauseOpen + "undefined" + TypeClauseClose)
  {
    RunOfThree(GeminiParts(r), 3);
    RunOfThree(OpenAIParts(r), 3);
    RunOfThree(LegacyParts(r), 3);
  }

  /** A persona key missing from the style table is not rejected either:
      the adapters write "Adopta el estilo de: undefined". */
  lemma MissingStylePrintsUndefined(r: Request)
    requires StyleApplies(r.copywriterProfile) && r.copywriterProfile.value !in AdapterStyles
    ensures IsPrefix(Intro + "\n" + (StylePrefix + "undefined") + TypeClauseOpen, GeminiPrompt(r))
    ensures IsPrefix(Intro + "\n" + (StylePrefix + "undefined") + TypeClauseOpen, OpenAIPrompt(r))
  {
    assert AdapterPersona(r.copywriterProfile) == StylePrefix + "undefined";
    CharacteristicsCarried(AdapterPersona(r.copywriterProfile), Lookup(GeminiEmailTypes, r.emailType), r, GeminiTail(r.productLink));
    CharacteristicsCarried(AdapterPersona(r.copywriterProfile), Lookup(OpenAIEmailTypes, r.emailType), r, OpenAITail);
  }

  /** The profile "general": the adapters fall back to the generic
      sentence, while the legacy builder looks it up as a style and writes
      "Adopta el estilo de: undefined". */
  lemma GeneralProfile(r: Request)
    requires r.copywriterProfile == Some("general")
    ensures IsPrefix(Intro + "\n" + GenericPersona + TypeClauseOpen, GeminiPrompt(r))
    ensures IsPrefix(Intro + "\n" + GenericPersona + TypeClauseOpen, OpenAIPrompt(r))
    ensures IsPrefix(Intro + "\n" + (StylePrefix + "undefined") + TypeClauseOpen, LegacyPrompt(r))
  {
    assert AdapterPersona(r.copywriterProfile) == GenericPersona;
    assert LegacyPersona(r.copywriterProfile) == StylePrefix + "undefined";
    CharacteristicsCarried(GenericPersona, Lookup(GeminiEmailTypes, r.emailType), r, GeminiTail(r.productLink));
    CharacteristicsCarried(GenericPersona, Lookup(OpenAIEmailTypes, r.emailType), r, OpenAITail);
    CharacteristicsCarried(StylePrefix + "undefined", Lookup(LegacyEmailTypes, r.emailType), r, LegacyTail(r.productLink));
  }

  /** The two adapters' copies of the email-type table drifted apart: a
      welcome email reads "suscriptores" for Gemini and the legacy builder,
      and "suscriptors" for OpenAI. */
  lemma WelcomeTablesDiffer(r: Request)
    requires r.emailType == "bienvenida"
    ensures Contains(GeminiPrompt(r), "Email de bienvenida para nuevos suscriptores")
    ensures Contains(OpenAIPrompt(r), "Email de bienvenida para nuevos suscriptors")
    ensures Contains(LegacyPrompt(r), "Email de bienvenida para nuevos suscriptores")
  {
    ConcatContainsPart(GeminiParts(r), 4);
    ConcatContainsPart(OpenAIParts(r), 4);
    ConcatContainsPart(LegacyParts(r), 4);
  }
}
