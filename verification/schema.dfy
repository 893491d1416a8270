/** The shared request and response shapes: validation of a generation
    request body (required non-empty fields, the URL check, optional fields
    and defaults) and the shape of an email response. */
module Schema {
  import opened Wrappers
  import opened Js

  /** A request body that passed validation, with defaults applied and
      unknown keys dropped. */
  datatype Request = Request(
    emailType: string,
    clientTone: string,
    productName: string,
    productDescription: string,
    productLink: string,
    targetAudience: string,
    copywriterProfile: Option<string>,
    elementsToAvoid: Option<string>,
    includePreheader: bool,
    aiProvider: string)

  /** One validation problem: the path of the offending field (empty for the
      body itself) and its message. */
  datatype Issue = Issue(path: seq<string>, message: string)

  /** A generated email. Each field holds whatever value the normaliser
      produced; a `preheader` of `Undefined` is absent from the reply. */
  datatype EmailResponse = EmailResponse(
    subject: Value,
    preheader: Value,
    body: Value,
    wordCount: Value,
    readingTime: Value,
    conversionScore: Value)

  const DefaultProvider := "gemini"

  /** The request fields in the order the schema declares them. */
  const FieldKeys: seq<string> := [
    "emailType", "clientTone", "productName", "productDescription", "productLink",
    "targetAudience", "copywriterProfile", "elementsToAvoid", "includePreheader", "aiProvider"]

  /** The fields that must be non-empty strings, with the message for an empty one. */
  const RequiredMessages: map<string, string> := map[
    "emailType" := "Tipo de email es requerido",
    "clientTone" := "Tono del mensaje es requerido",
    "productName" := "Nombre del producto es requerido",
    "productDescription" := "Descripción del producto es requerida",
    "targetAudience" := "Público objetivo es requerido"]

  const UrlMessage := "Link del producto debe ser una URL válida"

  /** The issue for a value of the wrong type: "Required" when it is missing. */
  function TypeIssue(path: seq<string>, expected: string, v: Value): Issue {
    Issue(path, if v.Undefined? then "Required" else "Expected " + expected + ", received " + TypeName(v))
  }

  /** The checks the schema runs on one field of an object body. */
  function FieldIssues(body: Value, key: string, isUrl: string -> bool): seq<Issue> {
    var v := Field(body, key);
    if key in RequiredMessages then
      (if !v.Str? then [TypeIssue([key], "string", v)]
       else if |v.s| < 1 then [Issue([key], RequiredMessages[key])]
       else [])
    else if key == "productLink" then
      (if !v.Str? then [TypeIssue([key], "string", v)]
       else if !isUrl(v.s) then [Issue([key], UrlMessage)]
       else [])
    else if key == "includePreheader" then
      (if v.Undefined? || v.Bool? then [] else [TypeIssue([key], "boolean", v)])
    else
      (if v.Undefined? || v.Str? then [] else [TypeIssue([key], "string", v)])
  }

  function IssuesFor(body: Value, keys: seq<string>, isUrl: string -> bool): seq<Issue> {
    if |keys| == 0 then [] else FieldIssues(body, keys[0], isUrl) + IssuesFor(body, keys[1..], isUrl)
  }

  /** Every problem the schema finds in a request body, in field order. */
  function Issues(body: Value, isUrl: string -> bool): seq<Issue> {
    if body.Obj? then IssuesFor(body, FieldKeys, isUrl) else [TypeIssue([], "object", body)]
  }

  /** What the schema accepts for one field, stated directly. */
  predicate FieldValid(body: Value, key: string, isUrl: string -> bool) {
    var v := Field(body, key);
    if key in RequiredMessages then v.Str? && |v.s| >= 1
    else if key == "productLink" then v.Str? && isUrl(v.s)
    else if key == "includePreheader" then v.Undefined? || v.Bool?
    else v.Undefined? || v.Str?
  }

  /** What the schema accepts for a whole body. */
  predicate WellFormedBody(body: Value, isUrl: string -> bool) {
    body.Obj? && forall k :: k in FieldKeys ==> FieldValid(body, k, isUrl)
  }

  lemma FieldIssuesAgree(body: Value, key: string, isUrl: string -> bool)
    ensures FieldIssues(body, key, isUrl) == [] <==> FieldValid(body, key, isUrl)
    ensures |FieldIssues(body, key, isUrl)| <= 1
    ensures forall i :: i in FieldIssues(body, key, isUrl) ==> i.path == [key]
  {
  }

  /** The issue list names exactly the fields that fail their check. */
  lemma {:induction false} IssuesForAgree(body: Value, keys: seq<string>, isUrl: string -> bool)
    ensures IssuesFor(body, keys, isUrl) == [] <==> forall k :: k in keys ==> FieldValid(body, k, isUrl)
    ensures forall k :: k in keys ==>
      ((exists i :: i in IssuesFor(body, keys, isUrl) && i.path == [k]) <==> !FieldValid(body, k, isUrl))
    ensures forall i :: i in IssuesFor(body, keys, isUrl) ==> |i.path| == 1 && i.path[0] in keys
  {
    if |keys| > 0 {
      IssuesForAgree(body, keys[1..], isUrl);
      FieldIssuesAgree(body, keys[0], isUrl);
      var here, rest := FieldIssues(body, keys[0], isUrl), IssuesFor(body, keys[1..], isUrl);
      assert IssuesFor(body, keys, isUrl) == here + rest;
      forall k | k in keys
        ensures (exists i: Issue :: i in here + rest && i.path == [k]) <==> !FieldValid(body, k, isUrl)
      {
        if k == keys[0] {
          if !FieldValid(body, k, isUrl) {
            assert here[0] in here + rest;
          }
        } else {
          assert k in keys[1..];
        }
      }
    }
  }

  /** `emailGenerationSchema.parse`: the request with defaults applied, or
      the list of issues. */
  function Validate(body: Value, isUrl: string -> bool): (r: Result<Request, seq<Issue>>)
    ensures r.Success? <==> WellFormedBody(body, isUrl)
    ensures r.Failure? ==> |r.error| > 0
    ensures r.Failure? && body.Obj? ==> forall k :: k in FieldKeys ==>
      ((exists i :: i in r.error && i.path == [k]) <==> !FieldValid(body, k, isUrl))
    ensures r.Success? ==>
      && Field(body, "emailType") == Str(r.value.emailType)
      && Field(body, "clientTone") == Str(r.value.clientTone)
      && Field(body, "productName") == Str(r.value.productName)
      && Field(body, "productDescription") == Str(r.value.productDescription)
      && Field(body, "productLink") == Str(r.value.productLink)
      && Field(body, "targetAudience") == Str(r.value.targetAudience)
    ensures r.Success? ==>
      && (r.value.copywriterProfile.Some? <==> Field(body, "copywriterProfile").Str?)
      && (r.value.copywriterProfile.Some? ==> Field(body, "copywriterProfile") == Str(r.value.copywriterProfile.value))
      && (r.value.elementsToAvoid.Some? <==> Field(body, "elementsToAvoid").Str?)
      && (r.value.elementsToAvoid.Some? ==> Field(body, "elementsToAvoid") == Str(r.value.elementsToAvoid.value))
    ensures r.Success? ==>
      && r.value.includePreheader == (Field(body, "includePreheader") == Bool(true))
      && r.value.aiProvider == (if Field(body, "aiProvider").Str? then Field(body, "aiProvider").s else DefaultProvider)
  {
    if !body.Obj? then Failure(Issues(body, isUrl))
    else
      IssuesForAgree(body, FieldKeys, isUrl);
      var issues := Issues(body, isUrl);
      if issues != [] then Failure(issues)
      else
        WellFormedFields(body, isUrl);
        Success(RequestOf(body))
  }

  /** The text of a string value; only read where the schema has checked
      that the value is one. */
  function StrOf(v: Value): string {
    if v.Str? then v.s else ""
  }

  /** The request a well-formed body parses to: optional strings kept when
      present, `includePreheader` false unless given as true, and the
      provider "gemini" unless given. */
  function RequestOf(body: Value): Request {
    var profile := Field(body, "copywriterProfile");
    var avoid := Field(body, "elementsToAvoid");
    var provider := Field(body, "aiProvider");
    Request(
      StrOf(Field(body, "emailType")),
      StrOf(Field(body, "clientTone")),
      StrOf(Field(body, "productName")),
      StrOf(Field(body, "productDescription")),
      StrOf(Field(body, "productLink")),
      StrOf(Field(body, "targetAudience")),
      if profile.Str? then Some(profile.s) else None,
      if avoid.Str? then Some(avoid.s) else None,
      Field(body, "includePreheader") == Bool(true),
      if provider.Str? then provider.s else DefaultProvider)
  }

  /** In a well-formed body the six required fields are strings. */
  lemma WellFormedFields(body: Value, isUrl: string -> bool)
    requires WellFormedBody(body, isUrl)
    ensures Field(body, "emailType").Str? && Field(body, "clientTone").Str?
    ensures Field(body, "productName").Str? && Field(body, "productDescription").Str?
    ensures Field(body, "productLink").Str? && Field(body, "targetAudience").Str?
  {
    assert FieldValid(body, FieldKeys[0], isUrl) && FieldValid(body, FieldKeys[1], isUrl);
    assert FieldValid(body, FieldKeys[2], isUrl) && FieldValid(body, FieldKeys[3], isUrl);
    assert FieldValid(body, FieldKeys[4], isUrl) && FieldValid(body, FieldKeys[5], isUrl);
  }

  /** An empty required field is rejected with that field's own message. */
  lemma EmptyRequiredFieldRejected(body: Value, key: string, isUrl: string -> bool)
    requires body.Obj? && key in RequiredMessages && Field(body, key) == Str("")
    ensures Validate(body, isUrl).Failure?
    ensures Issue([key], RequiredMessages[key]) in Validate(body, isUrl).error
  {
    IssuesForMember(body, FieldKeys, key, isUrl);
  }

  /** A product link that is a string but not a URL is rejected with the
      link's own message. */
  lemma InvalidLinkRejected(body: Value, isUrl: string -> bool)
    requires body.Obj? && Field(body, "productLink").Str? && !isUrl(Field(body, "productLink").s)
    ensures Validate(body, isUrl).Failure?
    ensures Issue(["productLink"], UrlMessage) in Validate(body, isUrl).error
  {
    IssuesForMember(body, FieldKeys, "productLink", isUrl);
  }

  /** A required field left out of the body is rejected with Zod's
      "Required" message. */
  lemma MissingFieldRejected(body: Value, key: string, isUrl: string -> bool)
    requires body.Obj? && (key in RequiredMessages || key == "productLink") && key !in body.fields
    ensures Validate(body, isUrl).Failure?
    ensures Issue([key], "Required") in Validate(body, isUrl).error
  {
    assert key in FieldKeys;
    assert Field(body, key) == Undefined;
    assert FieldIssues(body, key, isUrl) == [Issue([key], "Required")];
    IssuesForMember(body, FieldKeys, key, isUrl);
  }

  lemma {:induction false} IssuesForMember(body: Value, keys: seq<string>, key: string, isUrl: string -> bool)
    requires key in keys
    ensures forall i :: i in FieldIssues(body, key, isUrl) ==> i in IssuesFor(body, keys, isUrl)
  {
    if keys[0] != key {
      IssuesForMember(body, keys[1..], key, isUrl);
    }
  }

  /** A body holding only the six required fields: any non-empty
      `emailType` passes, including keys the prompt tables do not know, the
      optional fields stay absent and the defaults fill in. */
  lemma MinimalBodyAccepted(emailType: string, tone: string, name: string, description: string,
                            link: string, audience: string, isUrl: string -> bool)
    requires emailType != "" && tone != "" && name != "" && description != "" && audience != ""
    requires isUrl(link)
    ensures var body := Obj(map[
              "emailType" := Str(emailType), "clientTone" := Str(tone), "productName" := Str(name),
              "productDescription" := Str(description), "productLink" := Str(link),
              "targetAudience" := Str(audience)]);
            Validate(body, isUrl) == Success(Request(emailType, tone, name, description, link, audience,
                                                     None, None, false, "gemini"))
  {
    var body := Obj(map[
      "emailType" := Str(emailType), "clientTone" := Str(tone), "productName" := Str(name),
      "productDescription" := Str(description), "productLink" := Str(link),
      "targetAudience" := Str(audience)]);
    assert FieldValid(body, "emailType", isUrl) && FieldValid(body, "clientTone", isUrl);
    assert FieldValid(body, "productName", isUrl) && FieldValid(body, "productDescription", isUrl);
    assert FieldValid(body, "productLink", isUrl) && FieldValid(body, "targetAudience", isUrl);
    assert FieldValid(body, "copywriterProfile", isUrl) && FieldValid(body, "elementsToAvoid", isUrl);
    assert FieldValid(body, "includePreheader", isUrl) && FieldValid(body, "aiProvider", isUrl);
    assert WellFormedBody(body, isUrl);
    var r := Validate(body, isUrl);
    assert r.value == Request(emailType, tone, name, description, link, audience, None, None, false, "gemini");
  }

  /** The response schema: `preheader` is the only optional field. */
  predicate MatchesResponseSchema(e: EmailResponse) {
    && e.subject.Str?
    && (e.preheader.Undefined? || e.preheader.Str?)
    && e.body.Str?
    && e.wordCount.Num?
    && e.readingTime.Str?
    && e.conversionScore.Num?
  }
}
