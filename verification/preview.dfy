/** The parts of the preview panel that compute something: the text copied
    to the clipboard, whether the preheader block is shown, and the stat
    tiles' fallbacks. */
module Preview {
  import opened Wrappers
  import opened Js
  import opened Strings
  import opened Schema
  import opened Normalise

  function SubjectLine(e: EmailResponse, show: real -> string): string {
    "Asunto: " + Text(e.subject, show) + "\n\n"
  }

  function PreheaderLine(e: EmailResponse, show: real -> string): string {
    "Preencabezado: " + Text(e.preheader, show) + "\n\n"
  }

  /** `copyToClipboard`'s text: nothing without an email; otherwise the
      subject line, the preheader line when the preheader is truthy, and
      the body. */
  function ClipboardText(email: Option<EmailResponse>, show: real -> string): (r: Option<string>)
    ensures r.None? <==> email.None?
    ensures r.Some? ==> IsPrefix(SubjectLine(email.value, show), r.value)
    ensures r.Some? ==> IsSuffix(Text(email.value.body, show), r.value)
    ensures r.Some? && Truthy(email.value.preheader) ==> Contains(r.value, PreheaderLine(email.value, show))
    ensures r.Some? && Truthy(email.value.preheader) ==>
      OccursAt(r.value, PreheaderLine(email.value, show), |SubjectLine(email.value, show)|)
    ensures r.Some? ==>
      |r.value| == |SubjectLine(email.value, show)| + |Text(email.value.body, show)| +
        (if Truthy(email.value.preheader) then |PreheaderLine(email.value, show)| else 0)
  {
    if email.None? then None
    else
      var e := email.value;
      var subjectLine := SubjectLine(e, show);
      var middle := if Truthy(e.preheader) then PreheaderLine(e, show) else "";
      var body := Text(e.body, show);
      var text := subjectLine + middle + body;
      assert text[..|subjectLine|] == subjectLine;
      assert text[|text| - |body|..] == body;
      if Truthy(e.preheader) then
        ContainsMiddle(subjectLine, middle, body);
        assert subjectLine + middle + body == subjectLine + (middle + body);
        assert text[|subjectLine|..|subjectLine| + |middle|] == middle;
        Some(text)
      else Some(text)
  }

  /** The preheader line is an insertion: the text with a truthy preheader
      is the text without one plus that line right after the subject line,
      and a falsy preheader leaves the text as if it were absent. */
  lemma PreheaderInserted(e: EmailResponse, show: real -> string)
    ensures var bare := ClipboardText(Some(e.(preheader := Undefined)), show).value;
      var full := ClipboardText(Some(e), show).value;
      if Truthy(e.preheader) then InsertedAt(full, bare, PreheaderLine(e, show), |SubjectLine(e, show)|)
      else full == bare
  {
    var bare := ClipboardText(Some(e.(preheader := Undefined)), show).value;
    var full := ClipboardText(Some(e), show).value;
    var s := SubjectLine(e, show);
    var b := Text(e.body, show);
    assert SubjectLine(e.(preheader := Undefined), show) == s;
    assert bare == s + b;
    if Truthy(e.preheader) {
      var m := PreheaderLine(e, show);
      assert full == s + m + b;
      assert full[..|s|] == s;
      assert full[|s|..|s| + |m|] == m;
      assert full[|s| + |m|..] == b;
      assert bare[..|s|] == s;
      assert bare[|s|..] == b;
    }
  }

  /** `(generatedEmail?.preheader || isGenerating)`: the preheader block is
      rendered while generating or when the email has a truthy preheader. */
  predicate PreheaderShown(email: Option<EmailResponse>, generating: bool) {
    generating || (email.Some? && Truthy(email.value.preheader))
  }

  /** The panel and the clipboard agree: once generation is over, the
      preheader block is shown exactly when the copied text carries a
      preheader line. */
  lemma PanelAgreesWithClipboard(e: EmailResponse, show: real -> string)
    ensures PreheaderShown(Some(e), false) <==>
      ClipboardText(Some(e), show) != ClipboardText(Some(e.(preheader := Undefined)), show)
  {
    PreheaderInserted(e, show);
  }

  /** For an email generated without asking for a preheader, the block only
      appears as a placeholder while generating and never reaches the
      clipboard. */
  lemma UnrequestedPreheaderNeverShown(result: Value, show: real -> string, generating: bool)
    requires FormatResponse(result, false).Success?
    ensures var e := FormatResponse(result, false).value;
      && (PreheaderShown(Some(e), generating) <==> generating)
      && ClipboardText(Some(e), show) == ClipboardText(Some(e.(preheader := Undefined)), show)
  {
  }

  /** The word-count tile: `generatedEmail?.wordCount || 0`. */
  function ShownWordCount(email: Option<EmailResponse>): (v: Value)
    ensures Truthy(v) || v == Num(0.0)
    ensures email.Some? && Truthy(email.value.wordCount) ==> v == email.value.wordCount
    ensures !(email.Some? && Truthy(email.value.wordCount)) ==> v == Num(0.0)
  {
    Or(if email.Some? then email.value.wordCount else Undefined, Num(0.0))
  }

  /** The reading-time tile: `generatedEmail?.readingTime || "0 min"`. */
  function ShownReadingTime(email: Option<EmailResponse>): (v: Value)
    ensures Truthy(v)
    ensures email.Some? && Truthy(email.value.readingTime) ==> v == email.value.readingTime
    ensures !(email.Some? && Truthy(email.value.readingTime)) ==> v == Str("0 min")
  {
    Or(if email.Some? then email.value.readingTime else Undefined, Str("0 min"))
  }

  /** The score tile: `generatedEmail?.conversionScore || 0`. */
  function ShownScore(email: Option<EmailResponse>): (v: Value)
    ensures Truthy(v) || v == Num(0.0)
    ensures email.Some? && Truthy(email.value.conversionScore) ==> v == email.value.conversionScore
    ensures !(email.Some? && Truthy(email.value.conversionScore)) ==> v == Num(0.0)
  {
    Or(if email.Some? then email.value.conversionScore else Undefined, Num(0.0))
  }

  /** A normalised email shows its own numbers: the panel's fallbacks only
      appear when there is no email, and the empty panel's "0 min" differs
      from the server's "1 min" default. */
  lemma StatsOfNormalisedEmail(result: Value, includePreheader: bool)
    requires FormatResponse(result, includePreheader).Success?
    ensures var e := FormatResponse(result, includePreheader).value;
      && ShownWordCount(Some(e)) == e.wordCount
      && ShownReadingTime(Some(e)) == e.readingTime
      && ShownScore(Some(e)) == e.conversionScore
    ensures ShownReadingTime(None) != DefaultReadingTime
  {
    assert Str("0 min") != Str("1 min") by { assert "0 min"[0] != "1 min"[0]; }
  }
}
