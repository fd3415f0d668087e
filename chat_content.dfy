/**
 * The values the chat session works with and the pure parts of its handlers:
 * messages, the choice of the AI reply text, the clinic link messages,
 * the static first-aid tips and the supported speech languages.
 */
module ChatContent {
  import opened Wrappers
  import opened JsStrings

  datatype Sender = User | Bot

  /** One entry of the chat log: `{ sender, text }`. */
  datatype Message = Message(sender: Sender, text: string)

  // ---------------------------------------------------------------------------
  // AI reply

  /**
   * What the completion request came back with: a JSON payload whose `text`
   * field is present (`Some`) or absent (`None`), or an exception thrown by
   * the request or by decoding its body.
   */
  datatype AIOutcome = Payload(text: Option<string>) | Threw

  const NoAnswerText: string := "⚠️ कोई उत्तर नहीं मिला।"
  const UnreachableText: string := "⚠️ AI से संपर्क नहीं हो सका।"

  /** A JavaScript string is truthy when it is not empty. */
  predicate IsTruthy(field: Option<string>) {
    field.Some? && field.value != ""
  }

  /**
   * The string `fetchAIReply` resolves to: the payload's text when it is
   * truthy, the "no answer" notice when it is not, the "could not reach the
   * AI" notice on any exception. It is never the empty string.
   */
  function FetchAIReply(outcome: AIOutcome): (r: string)
    ensures r != ""
    ensures outcome.Threw? ==> r == UnreachableText
    ensures outcome.Payload? && IsTruthy(outcome.text) ==> r == outcome.text.value
    ensures outcome.Payload? && !IsTruthy(outcome.text) ==> r == NoAnswerText
  {
    match outcome
    case Threw => UnreachableText
    case Payload(field) => if IsTruthy(field) then field.value else NoAnswerText
  }

  /** The reply is one of the two fixed notices exactly when no truthy text came back, unless that text is itself one of them. */
  lemma FallbackOnlyWithoutText(outcome: AIOutcome)
    requires !(outcome.Payload? && outcome.text in {Some(NoAnswerText), Some(UnreachableText)})
    ensures FetchAIReply(outcome) in {NoAnswerText, UnreachableText}
            <==> !(outcome.Payload? && IsTruthy(outcome.text))
  {
  }

  // ---------------------------------------------------------------------------
  // Messages built from lists

  /** Each text as a bot message, in order: `texts.map(t => ({ sender: 'bot', text: t }))`. */
  function BotMessages(texts: seq<string>): (r: seq<Message>)
    ensures |r| == |texts|
    ensures forall i :: 0 <= i < |r| ==> r[i] == Message(Bot, texts[i])
  {
    if texts == [] then [] else [Message(Bot, texts[0])] + BotMessages(texts[1..])
  }

  // ---------------------------------------------------------------------------
  // Clinic search

  /** One search result: only its `display_name` is used. */
  datatype Place = Place(displayName: string)

  /** What the place search came back with: the decoded result list, or an exception. */
  datatype ClinicOutcome = Results(places: seq<Place>) | Failed

  const MaxClinics: nat := 5

  const ClinicIntroText: string := "🧭 Nearby clinics:"
  const ClinicErrorText: string := "⚠️ Error fetching clinic data."

  /** The user message that opens a clinic search for `query`. */
  function ClinicsRequestText(query: string): string {
    "Clinics near " + query
  }

  /** The bot message when the search found nothing near `query`. */
  function NoClinicsText(query: string): string {
    "⚠️ No clinics found near \"" + query + "\"."
  }

  /** What the rendered log tests for to recognise a clinic link message. */
  const MapsLinkMarker: string := "<a href=\"https://www.google.com/maps"
  /** Everything of a clinic link up to the start of its `href` value. */
  const LinkHead: string := "📍 " + MapsLinkMarker + "?q="
  const LinkMiddle: string := "\" target=\"_blank\">"
  const LinkTail: string := "</a><br/><br/>"

  /** The text of the bot message for one place: a map-search anchor labelled with its name. */
  function ClinicLink(displayName: string): string {
    LinkHead + EncodeUriComponent(displayName) + LinkMiddle + displayName + LinkTail
  }

  /** Where the pieces of `a + b + c` sit. */
  lemma ConcatPieces(a: string, b: string, c: string)
    ensures var s := a + b + c;
            |s| == |a| + |b| + |c| && s[..|a|] == a && s[|a|..|a| + |b|] == b && s[|a| + |b|..] == c
  {
    var s := a + b + c;
    assert s[..|a|] == a;
    assert s[|a|..|a| + |b|] == b;
    assert s[|a| + |b|..] == c;
  }

  /**
   * The `href` value of a clinic link is the encoded name and ends at the
   * first `"` after it: whatever the name holds, it cannot close the
   * attribute early.
   */
  lemma ClinicLinkHrefIsEncodedName(displayName: string)
    ensures var link, enc := ClinicLink(displayName), EncodeUriComponent(displayName);
            |LinkHead| + |enc| < |link|
            && link[..|LinkHead|] == LinkHead
            && link[|LinkHead|..|LinkHead| + |enc|] == enc
            && link[|LinkHead| + |enc|] == '"'
    ensures var enc := EncodeUriComponent(displayName);
            forall i :: 0 <= i < |enc| ==> enc[i] != '"' && enc[i] != '<' && enc[i] != '>'
  {
    var enc := EncodeUriComponent(displayName);
    var rest := LinkMiddle + displayName + LinkTail;
    assert ClinicLink(displayName) == LinkHead + enc + rest;
    ConcatPieces(LinkHead, enc, rest);
    assert rest[0] == '"';
    EncodedHasNoMarkup(displayName);
  }

  /**
   * The anchor's label is the display name verbatim, not escaped: markup in a
   * place name reaches the rendered log as markup.
   */
  lemma ClinicLinkLabelIsRawName(displayName: string)
    ensures var link, k := ClinicLink(displayName), |LinkHead| + |EncodeUriComponent(displayName)| + |LinkMiddle|;
            k + |displayName| + |LinkTail| == |link|
            && link[k..k + |displayName|] == displayName
            && link[k + |displayName|..] == LinkTail
  {
    var head := LinkHead + EncodeUriComponent(displayName) + LinkMiddle;
    assert ClinicLink(displayName) == head + displayName + LinkTail;
    ConcatPieces(head, displayName, LinkTail);
  }

  /** Every clinic link carries the marker by which the rendered log recognises a map link. */
  lemma ClinicLinkHasMapsMarker(displayName: string)
    ensures var link, at := ClinicLink(displayName), |"📍 "|;
            at + |MapsLinkMarker| <= |link| && link[at..at + |MapsLinkMarker|] == MapsLinkMarker
  {
    var rest := "?q=" + EncodeUriComponent(displayName) + LinkMiddle + displayName + LinkTail;
    assert ClinicLink(displayName) == "📍 " + MapsLinkMarker + rest;
    ConcatPieces("📍 ", MapsLinkMarker, rest);
  }

  /** The link texts of the places, in order: `places.map(place => ...)`. */
  function ClinicLinks(places: seq<Place>): (r: seq<string>)
    ensures |r| == |places|
    ensures forall i :: 0 <= i < |r| ==> r[i] == ClinicLink(places[i].displayName)
  {
    if places == [] then [] else [ClinicLink(places[0].displayName)] + ClinicLinks(places[1..])
  }

  function Min(a: int, b: int): int {
    if a <= b then a else b
  }

  /**
   * `data.slice(0, 5).map(...)`: one bot link message for each of the first
   * five places, in result order.
   */
  function ClinicMessages(places: seq<Place>): (r: seq<Message>)
    ensures |r| == Min(MaxClinics, |places|)
    ensures forall i :: 0 <= i < |r| ==> r[i] == Message(Bot, ClinicLink(places[i].displayName))
  {
    BotMessages(ClinicLinks(places[..Min(MaxClinics, |places|)]))
  }

  // ---------------------------------------------------------------------------
  // First-aid and wellness tips

  const HealthTips: seq<string> := [
    "🩹 For small cuts, rinse with clean water and apply antiseptic.",
    "🔥 For minor burns, hold under cool running water for 10 minutes.",
    "🤒 For fever, rest well and drink plenty of fluids.",
    "🚶‍♀️ Walk for at least 30 minutes daily to improve heart health.",
    "🧴 Use sunscreen when outdoors to prevent sunburn.",
    "🧘‍♂️ Practice deep breathing or yoga to reduce stress.",
    "💧 Stay hydrated — aim for 8 glasses of water daily.",
    "🧼 Wash hands frequently to prevent infections."
  ]

  /** `healthTips.map(...)`: the eight tips as bot messages, in their fixed order. */
  function TipMessages(): (r: seq<Message>)
    ensures |r| == 8
    ensures forall i :: 0 <= i < 8 ==> r[i].sender == Bot && r[i].text == HealthTips[i]
  {
    BotMessages(HealthTips)
  }

  // ---------------------------------------------------------------------------
  // Speech languages

  datatype LanguageOption = LanguageOption(code: string, name: string)

  const LanguageOptions: seq<LanguageOption> := [
    LanguageOption("en-IN", "English (India)"),
    LanguageOption("hi-IN", "Hindi"),
    LanguageOption("bn-IN", "Bengali"),
    LanguageOption("gu-IN", "Gujarati"),
    LanguageOption("ta-IN", "Tamil"),
    LanguageOption("te-IN", "Telugu"),
    LanguageOption("mr-IN", "Marathi"),
    LanguageOption("pa-IN", "Punjabi"),
    LanguageOption("kn-IN", "Kannada"),
    LanguageOption("ml-IN", "Malayalam"),
    LanguageOption("ur-IN", "Urdu")
  ]

  const DefaultLanguage: string := "hi-IN"

  /** A code the language picker offers. */
  predicate IsSupportedLanguage(code: string) {
    exists i :: 0 <= i < |LanguageOptions| && LanguageOptions[i].code == code
  }

  /** The picker offers eleven distinct codes, and the default is one of them. */
  lemma LanguageOptionsWellFormed()
    ensures |LanguageOptions| == 11
    ensures forall i, j :: 0 <= i < j < |LanguageOptions| ==> LanguageOptions[i].code != LanguageOptions[j].code
    ensures IsSupportedLanguage(DefaultLanguage)
  {
    assert LanguageOptions[1].code == DefaultLanguage;
  }
}
