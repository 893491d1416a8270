# proemailgen email pipeline in Dafny

This project models the server-side email-generation pipeline of proemailgen.
Everything is written as pure functions over immutable values:

- validation of the generation request (`emailGenerationSchema`);
- the three prompt builders: the Gemini adapter, the OpenAI adapter and the legacy Gemini-only generator;
- `formatResponse`, which normalises a model reply using JavaScript `||` defaults and a preheader gate;
- the provider registry (`getProvider`, `getAvailableProviders`);
- the `generateEmail` façade, which wraps every failure in one message;
- the status mapping of `POST /api/generate-email` and `GET /api/ai-providers`;
- the clipboard text and stat fallbacks of the email preview panel.

## Modules

| file | module | contents |
|---|---|---|
| `wrappers.dfy` | `Wrappers` | `Option` and `Result` |
| `js.dfy` | `Js` | JavaScript values, truthiness, `a \|\| b`, property reads that throw on `null`/`undefined`, template interpolation |
| `strings.dfy` | `Strings` | prefix, suffix, containment, insertion, `Concat` of segment lists, ASCII `toLowerCase` |
| `schema.dfy` | `Schema` | the request, the issue list, the response record, `Validate` |
| `prompts.dfy` | `Prompts` | persona and email-type tables, the three prompts as segment lists |
| `normalise.dfy` | `Normalise` | `formatResponse` and its defaults |
| `providers.dfy` | `Providers` | registry, availability, the two adapters, the façade |
| `legacy.dfy` | `Legacy` | `server/services/gemini.ts` |
| `routes.dfy` | `Routes` | the two HTTP handlers as request → (status, body) |
| `preview.dfy` | `Preview` | clipboard text, preheader visibility, stat tiles |

The outside world is passed in as parameters:

- `Providers.Sdk` bundles the Gemini call (the reply's `text`, possibly absent), the OpenAI call (the contents of `choices`, each possibly `null`) and `JSON.parse`. Each of them may also throw.
- Zod's URL check is the parameter `isUrl`.
- `process.env` is a `map<string, string>`.
- Number-to-text conversion in template strings is the parameter `show`.

## Quirks of the code

The model keeps these behaviours of the code as they are.

- **Fallback texts.** The defaults for a missing subject and body are the Spanish texts "Email generado" and "Contenido del email".
- **Unknown table keys.** Nothing checks the email type or persona key against the prompt tables. An unknown key is written into the prompt as the literal text `undefined` (`Prompts.MissingTypePrintsUndefined`, `Prompts.MissingStylePrintsUndefined`).
- **Unknown providers.** `getProvider` throws "AI provider '<name>' not found", but the façade catches it. The caller sees the same API-key message as for any other failure (`Providers.UnknownProviderLooksLikeKeyError`).
- **Defaults.** The provider defaults to `"gemini"`, both in the schema and in `getProvider`. `copywriterProfile` is an optional free string with no default.
- **Legacy generator.** `server/services/gemini.ts` is not imported by the routes. It has its own prompt variant and is modelled on its own.

## Model

| member | source | states |
|---|---|---|
| `Js.Get` | server/services/ai-providers.ts:101 | reading a property throws a TypeError exactly when the value is `null` or `undefined`, and otherwise yields the field or `undefined` |
| `Js.OrKeepsOrFallsBack` | server/services/ai-providers.ts:101-108 | `a \|\| b` is `a` when `a` is truthy and `b` otherwise; it is truthy iff one of them is |
| `Strings.Lower` | server/services/ai-providers.ts:205 | lower-cases ASCII letters and keeps every other character, position by position |
| `Schema.FieldIssuesAgree` | shared/schema.ts:104-113 | a field yields no issue iff it passes its check, at most one issue, always under its own path |
| `Schema.IssuesForAgree` | shared/schema.ts:103-114 | the issue list names exactly the fields that fail, and only schema fields |
| `Schema.Validate` | shared/schema.ts:103-114 | parse succeeds iff the body is well formed; a failure lists an issue for every invalid field and no valid one; on success the strings are the body's, the optional fields are present iff given as strings, `includePreheader` defaults to false and `aiProvider` to "gemini" |
| `Schema.EmptyRequiredFieldRejected` | shared/schema.ts:104-109 | an empty emailType, clientTone, productName, productDescription or targetAudience is rejected with that field's Spanish message |
| `Schema.InvalidLinkRejected` | shared/schema.ts:108 | a product link that is a string but fails the URL check is rejected with "Link del producto debe ser una URL válida" under the path `productLink` |
| `Schema.MissingFieldRejected` | shared/schema.ts:104-109 | a required field absent from the body is rejected with Zod's "Required" message under its own path |
| `Schema.MinimalBodyAccepted` | shared/schema.ts:104-113 | the six required fields alone are accepted, with any non-empty email type, the optional fields absent and the defaults applied |
| `Normalise.FormatResponse` | server/services/ai-providers.ts:100-109 | a `null` reply throws; otherwise each truthy field passes through and each falsy one becomes "Email generado", "Contenido del email", 0, "1 min" or 7.5; the preheader is the reply's iff requested, else absent |
| `Normalise.NormalisedIsComplete` | server/services/ai-providers.ts:100-109 | a normalised response has a truthy subject, body, reading time and score, and a word count that is truthy or 0 |
| `Normalise.NormaliseIdempotent` | server/services/ai-providers.ts:100-109 | normalising the serialised form of a normalised response returns it unchanged |
| `Normalise.SchemaShapeIff` | shared/schema.ts:118-125 | the normalised response matches the response schema, where only the preheader is optional, iff every truthy reply field already has its declared type |
| `Prompts.GeminiPromptContents` | server/services/ai-providers.ts:72-97 | the Gemini prompt opens with the role and persona lines, holds the email-type text, every field verbatim behind its label, the avoid line when given, and the link in checklist item 4 |
| `Prompts.OpenAIPromptContents` | server/services/ai-providers.ts:131-180 | the OpenAI system prompt holds the same persona, type text and fields but does not depend on the product link; the user message ends with the link |
| `Prompts.LegacyPromptContents` | server/services/gemini.ts:26-53 | the legacy prompt holds the fields and a link-free item 4, ends with "Genera un email profesional con link: " and the link, and is the link-free prompt followed by the link |
| `Prompts.PersonaStyledIff` | server/services/ai-providers.ts:72-73 | "Adopta el estilo de: " follows the role line iff the profile is truthy and not "general" (adapters), iff it is truthy (legacy builder, server/services/gemini.ts:27) |
| `Prompts.AvoidLineOnlyWhenTruthy` | server/services/ai-providers.ts:80 | in all three prompts a truthy `elementsToAvoid` inserts "- EVITA: " and the text into the prompt built without it; a falsy one changes nothing |
| `Prompts.MissingTypePrintsUndefined` | server/services/ai-providers.ts:75 | an email type missing from the tables is written as "undefined" in every prompt |
| `Prompts.MissingStylePrintsUndefined` | server/services/ai-providers.ts:73 | a styled profile missing from the persona table is written as "Adopta el estilo de: undefined" |
| `Prompts.GeneralProfile` | server/services/gemini.ts:27 | for the profile "general" the adapters use the generic sentence, while the legacy builder writes "Adopta el estilo de: undefined" |
| `Prompts.WelcomeTablesDiffer` | server/services/ai-providers.ts:151-158 | a welcome email reads "suscriptores" in the Gemini and legacy prompts and "suscriptors" in the OpenAI prompt |
| `Providers.Find` | server/services/ai-providers.ts:205 | map lookup finds an entry iff some registered key equals the name, and returns that entry's provider |
| `Providers.GetProvider` | server/services/ai-providers.ts:204-210 | succeeds iff the lower-cased name is "gemini" or "openai", returning that instance; otherwise throws "AI provider '<name>' not found" with the name as given |
| `Providers.GetProviderIgnoresCase` | server/services/ai-providers.ts:205 | names equal after lower-casing resolve identically |
| `Providers.DefaultNameSelectsGemini` | server/services/ai-providers.ts:204 | the default argument selects Gemini |
| `Providers.CaseVariantsResolve` | server/services/ai-providers.ts:199-206 | "GEMINI", "Gemini" and "gemini" give the Gemini instance; "OPENAI" and "OpenAI" the OpenAI one |
| `Providers.Describe` | server/services/ai-providers.ts:213-217 | one descriptor per registered provider, in order, with its name and key, available iff the key variable is non-empty |
| `Providers.AvailableProviders` | server/services/ai-providers.ts:212-218 | exactly two descriptors, Gemini then OpenAI, each available iff its key variable is set and non-empty |
| `Providers.NothingAvailableWithoutKeys` | server/services/ai-providers.ts:216 | with no non-empty key variables every descriptor is unavailable |
| `Providers.ListedNamesResolve` | server/services/ai-providers.ts:200-205 | every listed descriptor name resolves through `getProvider` |
| `Providers.ReadGeminiReply` | server/services/ai-providers.ts:45-51 | an absent or empty reply text throws "Empty response from Gemini"; a non-empty text yields the normalisation of its parse, or the parser's error; nothing else succeeds |
| `Providers.ContentOrEmpty` | server/services/ai-providers.ts:138 | `content \|\| "{}"`: a null or empty content becomes "{}", anything else is kept |
| `Providers.ReadOpenAIReply` | server/services/ai-providers.ts:138-139 | no choices throws a TypeError; otherwise the first content (or "{}") yields the normalisation of its parse, or the parser's error; nothing else succeeds |
| `Providers.AdapterOutputIsNormalised` | server/services/ai-providers.ts:45-51 | an adapter succeeds iff its SDK call yields a text that parses to a non-null value, and then returns exactly that value's normalisation, with no preheader unless requested |
| `Providers.OpenAINullContentGivesDefaults` | server/services/ai-providers.ts:138-139 | a null content from OpenAI yields the fully defaulted response |
| `Providers.GeminiEmptyTextFails` | server/services/ai-providers.ts:46-51 | Gemini with no reply text fails with "Empty response from Gemini" |
| `Providers.GenerateEmail` | server/services/ai-providers.ts:224-232 | the façade succeeds iff the provider resolves and its adapter succeeds, returning that result unchanged; every failure becomes "Error al generar el email con <provider>. Verifica tu API key." |
| `Providers.UnknownProviderLooksLikeKeyError` | server/services/ai-providers.ts:224-232 | an unknown provider yields the same API-key message as an adapter failure |
| `Providers.GenerateEmailIgnoresCase` | server/services/ai-providers.ts:224-228 | provider names equal after lower-casing give the same success |
| `Legacy.LegacyNormaliseAgrees` | server/services/gemini.ts:81-88 | the legacy inline normalisation equals `formatResponse` on every reply |
| `Legacy.LegacyGenerate` | server/services/gemini.ts:75-96 | the legacy generator succeeds iff its attempt does, unchanged; every failure becomes "Error al generar el email. Verifica tu API key de Gemini." |
| `Legacy.LegacyEmptyReplyHidden` | server/services/gemini.ts:78-95 | an empty reply raises "Empty response from model" internally, and the caller only sees the Gemini key message |
| `Legacy.LegacyMatchesGeminiAdapter` | server/services/gemini.ts:75-88 | fed the same reply, the legacy generator and the Gemini adapter succeed together with the same email |
| `Routes.ProviderFor` | server/routes.ts:23 | `aiProvider` when non-empty, "gemini" when empty; never empty |
| `Routes.ErrorText` | server/routes.ts:34-36 | a thrown `Error` reports its message, anything else "Error interno del servidor" |
| `Routes.GenerateEmailRoute` | server/routes.ts:20-39 | status 400 iff validation fails, with "Datos de entrada inválidos" and the issues; 200 with the façade's email iff it succeeds; otherwise 500 with the façade's message |
| `Routes.InvalidBodyIgnoresProviders` | server/routes.ts:22-31 | a rejected body gets 400 whatever the providers would do |
| `Routes.MissingProviderUsesGemini` | server/routes.ts:23 | an absent or empty `aiProvider` is served by the Gemini adapter |
| `Routes.ServerErrorIsFacadeMessage` | server/routes.ts:32-37 | a 500 never carries the generic text, since the façade always throws an `Error` |
| `Routes.ProvidersRoute` | server/routes.ts:11-18 | always 200 with exactly the `getAvailableProviders` list: two descriptors flagged from the environment |
| `Preview.ClipboardText` | client/src/components/email-preview.tsx:18-23 | no text without an email; otherwise it starts with "Asunto: " and the subject, holds the preheader line right after it iff the preheader is truthy, ends with the body, and has no other characters |
| `Preview.PreheaderInserted` | client/src/components/email-preview.tsx:23 | a truthy preheader inserts "Preencabezado: <p>\n\n" right after the subject line; a falsy one leaves the text as if absent |
| `Preview.PanelAgreesWithClipboard` | client/src/components/email-preview.tsx:86 | after generation the preheader block is shown iff the copied text carries a preheader line |
| `Preview.UnrequestedPreheaderNeverShown` | client/src/components/email-preview.tsx:86 | an email generated without a preheader shows the block only while generating and never copies it |
| `Preview.ShownWordCount` | client/src/components/email-preview.tsx:138 | the tile shows the word count when there is an email and it is truthy, and 0 in every other case |
| `Preview.ShownReadingTime` | client/src/components/email-preview.tsx:150 | the tile shows the reading time when there is an email and it is truthy, and "0 min" in every other case |
| `Preview.ShownScore` | client/src/components/email-preview.tsx:162 | the tile shows the score when there is an email and it is truthy, and 0 in every other case |
| `Preview.StatsOfNormalisedEmail` | client/src/components/email-preview.tsx:138-162 | a normalised email's tiles show its own values; the empty panel's "0 min" differs from the server's "1 min" default |

## Left out

- SDK calls (model names, temperature, `max_tokens`, the `responseSchema` object) are foreign network calls. Their replies are the parameters in `Providers.Sdk`.
- `JSON.parse` is an abstract partial function in `Providers.Sdk`.
- Zod's URL check is the parameter `isUrl`.
- `console.log` and `console.error` are logging side effects only.
- SDK client construction and reads of `process.env` are left out. The environment is a map parameter. The OpenAI client also accepts `OPENAI_KEY`, but availability ignores it, so the model does too.
- Object-prototype names such as `constructor` or `toString` are treated as missing keys. The real object tables would return inherited members for them, which the prompt would then print.
- Strings.Lower: models `toLowerCase` on ASCII letters only. JavaScript also lower-cases non-ASCII letters, sometimes changing the length (as with "İ"). No non-ASCII character lower-cases into the letters of "gemini" or "openai", so provider lookup is unaffected.
- `Js.Text` takes the number-to-text conversion as a parameter; `Number.prototype.toString` itself is not modelled.
- Floating point is not modelled. Numbers are exact reals, so NaN does not exist and 0 is the only falsy number.
- The 500 branch of `/api/ai-providers` is left out. Listing providers cannot throw, so that branch is unreachable.
- The storage layer, the database tables, the CRUD routes and Express plumbing are left out.
- React rendering, timers, the clipboard API and its error toast are left out.
- Schema.Issue: an issue keeps only Zod's `path` and `message`. The 400 body of `/api/generate-email` sends Zod's full issue objects, which also carry `code`, `expected`/`received`, `minimum` and `validation`. Those fields are not modelled.
- Providers.ReadOpenAIReply: a choice without a `message` object is not modelled. Each choice is its content or `null`.
