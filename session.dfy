/**
 * The chat session held by the ChatBot component: its state fields and one
 * method per handler. Each asynchronous leaf (the completion request, the
 * place search, the speech recogniser) is a parameter that states its
 * outcome, so that every handler is one deterministic step.
 */
module Session {
  import opened Wrappers
  import opened JsStrings
  import opened ChatContent

  /**
   * The two browser storage slots the session uses: the serialised log under
   * `localStorage['chat-history']` (kept here as the message list itself) and
   * the `sessionStorage['visited']` marker.
   */
  datatype BrowserStorage = BrowserStorage(chatHistory: Option<seq<Message>>, visited: Option<string>)

  const VisitedMarker: string := "true"

  /** `sessionStorage.getItem('visited')` is truthy. */
  predicate HasVisited(storage: BrowserStorage) {
    storage.visited.Some? && storage.visited.value != ""
  }

  class ChatBot {
    var messages: seq<Message>
    /** The input buffer. */
    var text: string
    var language: string
    var isListening: bool
    var isLoading: bool
    /** The clinic query buffer. */
    var clinicQuery: string
    var storage: BrowserStorage

    /**
     * The language is one the picker offers, the tab's `sessionStorage`
     * session is marked as visited, and whatever history is stored is a
     * prefix of the log: as long as this tab is the only writer of the
     * storage, a reload never shows a message the log does not hold, though
     * it may miss the latest ones.
     */
    predicate Valid()
      reads this
    {
      IsSupportedLanguage(language)
      && HasVisited(storage)
      && (storage.chatHistory.Some? ==> storage.chatHistory.value <= messages)
    }

    /** The stored history is exactly the log. */
    predicate HistorySaved()
      reads this
    {
      storage.chatHistory == Some(messages)
    }

    /**
     * Mounting the component over the browser's storage: the initial state,
     * then the session-initialisation effect. On the first load in a new
     * `sessionStorage` session of the tab the stored history is discarded and the marker set before the
     * history is read, so the log starts empty; on a later load the log is
     * the stored history, or empty when none is stored.
     */
    constructor (browser: BrowserStorage)
      ensures Valid()
      ensures text == "" && clinicQuery == "" && language == DefaultLanguage
      ensures !isListening && !isLoading
      ensures !HasVisited(browser) ==>
                messages == [] && storage == BrowserStorage(None, Some(VisitedMarker))
      ensures HasVisited(browser) ==>
                storage == browser && messages == browser.chatHistory.GetOr([])
    {
      messages := [];
      text := "";
      language := DefaultLanguage;
      isListening := false;
      isLoading := false;
      clinicQuery := "";
      storage := browser;
      new;
      LanguageOptionsWellFormed();
      if !HasVisited(storage) {
        storage := storage.(chatHistory := None);
        storage := storage.(visited := Some(VisitedMarker));
      }
      match storage.chatHistory {
        case Some(saved) => messages := saved;
        case None =>
      }
    }

    /** Typing into the message input. */
    method EditText(value: string)
      requires Valid()
      modifies this
      ensures Valid()
      ensures text == value
      ensures messages == old(messages) && language == old(language) && isListening == old(isListening)
      ensures isLoading == old(isLoading) && clinicQuery == old(clinicQuery) && storage == old(storage)
    {
      text := value;
    }

    /** Typing into the city input. */
    method EditClinicQuery(value: string)
      requires Valid()
      modifies this
      ensures Valid()
      ensures clinicQuery == value
      ensures messages == old(messages) && text == old(text) && language == old(language)
      ensures isListening == old(isListening) && isLoading == old(isLoading) && storage == old(storage)
    {
      clinicQuery := value;
    }

    /** Picking a language: the picker only offers the supported codes. */
    method SelectLanguage(code: string)
      requires Valid()
      requires IsSupportedLanguage(code)
      modifies this
      ensures Valid()
      ensures language == code
      ensures messages == old(messages) && text == old(text) && isListening == old(isListening)
      ensures isLoading == old(isLoading) && clinicQuery == old(clinicQuery) && storage == old(storage)
    {
      language := code;
    }

    /**
     * `startListening`: without a recogniser nothing changes (the user is
     * alerted); otherwise the session is listening until one of the
     * recogniser's callbacks below fires.
     */
    method StartListening(recognizerAvailable: bool)
      requires Valid()
      modifies this
      ensures Valid()
      ensures isListening == (recognizerAvailable || old(isListening))
      ensures messages == old(messages) && text == old(text) && language == old(language)
      ensures isLoading == old(isLoading) && clinicQuery == old(clinicQuery) && storage == old(storage)
    {
      if !recognizerAvailable {
        return;
      }
      isListening := true;
    }

    /** `recognition.onresult`: the buffer becomes the transcript and listening stops. */
    method OnRecognitionResult(transcript: string)
      requires Valid()
      modifies this
      ensures Valid()
      ensures text == transcript && !isListening
      ensures messages == old(messages) && language == old(language)
      ensures isLoading == old(isLoading) && clinicQuery == old(clinicQuery) && storage == old(storage)
    {
      text := transcript;
      isListening := false;
    }

    /** `recognition.onerror`: listening stops, the buffer is untouched. */
    method OnRecognitionError()
      requires Valid()
      modifies this
      ensures Valid()
      ensures !isListening
      ensures messages == old(messages) && text == old(text) && language == old(language)
      ensures isLoading == old(isLoading) && clinicQuery == old(clinicQuery) && storage == old(storage)
    {
      isListening := false;
    }

    /** `recognition.onend`: listening stops, the buffer is untouched. */
    method OnRecognitionEnd()
      requires Valid()
      modifies this
      ensures Valid()
      ensures !isListening
      ensures messages == old(messages) && text == old(text) && language == old(language)
      ensures isLoading == old(isLoading) && clinicQuery == old(clinicQuery) && storage == old(storage)
    {
      isListening := false;
    }

    /** `setMessages(prev => [...prev, ...added])`: the log grows, the storage is not written. */
    method Append(added: seq<Message>)
      requires Valid()
      modifies this
      ensures Valid()
      ensures messages == old(messages) + added && storage == old(storage)
      ensures text == old(text) && language == old(language) && isListening == old(isListening)
      ensures isLoading == old(isLoading) && clinicQuery == old(clinicQuery)
    {
      messages := messages + added;
    }

    /**
     * `setMessages(prev => { const updated = [...prev, ...added];
     * localStorage.setItem('chat-history', ...); return updated; })`:
     * the log grows and the stored history becomes the new log.
     */
    method AppendAndSave(added: seq<Message>)
      requires Valid()
      modifies this
      ensures Valid()
      ensures messages == old(messages) + added && HistorySaved()
      ensures storage.visited == old(storage.visited)
      ensures text == old(text) && language == old(language) && isListening == old(isListening)
      ensures isLoading == old(isLoading) && clinicQuery == old(clinicQuery)
    {
      messages := messages + added;
      storage := storage.(chatHistory := Some(messages));
    }

    /**
     * `sendMessage`, with `reply(prompt)` the outcome of the completion request
     * for `prompt`, which is the buffer as typed. A
     * blank buffer changes nothing. Otherwise the user message (the buffer
     * as typed, untrimmed) and then one bot message with the reply are
     * appended, the stored history is the new log, the buffer is cleared and
     * the session is no longer loading.
     */
    method SendMessage(reply: string -> AIOutcome)
      requires Valid()
      modifies this
      ensures Valid()
      ensures language == old(language) && isListening == old(isListening) && clinicQuery == old(clinicQuery)
      ensures storage.visited == old(storage.visited)
      ensures IsBlank(old(text)) ==>
                messages == old(messages) && text == old(text)
                && isLoading == old(isLoading) && storage == old(storage)
      ensures !IsBlank(old(text)) ==>
                messages == old(messages) + [Message(User, old(text)), Message(Bot, FetchAIReply(reply(old(text))))]
                && HistorySaved() && text == "" && !isLoading
    {
      if IsBlank(text) {
        return;
      }
      var prompt := text;
      var userMessage := Message(User, text);
      AppendAndSave([userMessage]);

      text := "";
      isLoading := true;
      var botReply := FetchAIReply(reply(prompt));
      var botMessage := Message(Bot, botReply);
      AppendAndSave([botMessage]);
      isLoading := false;
    }

    /**
     * The `try`/`catch` part of `searchClinics`, once the place search for
     * `query` has come back with `outcome`: the intro and up to five link
     * messages saved with the log, or a single unsaved notice.
     */
    method ShowLookupOutcome(query: string, outcome: ClinicOutcome)
      requires Valid()
      modifies this
      ensures Valid()
      ensures text == old(text) && language == old(language) && isListening == old(isListening)
      ensures isLoading == old(isLoading) && clinicQuery == old(clinicQuery)
      ensures outcome.Results? && outcome.places != [] ==>
                messages == old(messages) + [Message(Bot, ClinicIntroText)] + ClinicMessages(outcome.places)
                && HistorySaved() && storage.visited == old(storage.visited)
      ensures outcome.Results? && outcome.places == [] ==>
                messages == old(messages) + [Message(Bot, NoClinicsText(query))] && storage == old(storage)
      ensures outcome.Failed? ==>
                messages == old(messages) + [Message(Bot, ClinicErrorText)] && storage == old(storage)
    {
      match outcome {
        case Results(places) =>
          if |places| == 0 {
            var msg := NoClinicsText(query);
            Append([Message(Bot, msg)]);
          } else {
            var intro := Message(Bot, ClinicIntroText);
            var clinicMessages := ClinicMessages(places);
            AppendAndSave([intro] + clinicMessages);
          }
        case Failed =>
          var msg := ClinicErrorText;
          Append([Message(Bot, msg)]);
      }
    }

    /**
     * `searchClinics`, with `lookup(query)` the outcome of the place search
     * for the clinic query. A blank
     * query changes nothing. Otherwise the user message `Clinics near <query>`
     * is appended and then: for a non-empty result list, the intro and one
     * link message for each of the first five places, and the stored history
     * becomes the log; for an empty list, the single "no clinics found"
     * message; on an exception, the single error message. In the last two
     * cases the stored history is left as it was and so lags behind the log.
     * The session ends not loading; the query is kept.
     */
    method SearchClinics(lookup: string -> ClinicOutcome)
      requires Valid()
      modifies this
      ensures Valid()
      ensures text == old(text) && language == old(language) && isListening == old(isListening)
      ensures clinicQuery == old(clinicQuery)
      ensures IsBlank(clinicQuery) ==>
                messages == old(messages) && isLoading == old(isLoading) && storage == old(storage)
      ensures !IsBlank(clinicQuery) ==> !isLoading
      ensures var request := Message(User, ClinicsRequestText(clinicQuery));
              var outcome := lookup(clinicQuery);
              !IsBlank(clinicQuery) && outcome.Results? && outcome.places != [] ==>
                messages == old(messages) + [request, Message(Bot, ClinicIntroText)] + ClinicMessages(outcome.places)
                && HistorySaved() && storage.visited == old(storage.visited)
      ensures var request := Message(User, ClinicsRequestText(clinicQuery));
              var outcome := lookup(clinicQuery);
              !IsBlank(clinicQuery) && outcome.Results? && outcome.places == [] ==>
                messages == old(messages) + [request, Message(Bot, NoClinicsText(clinicQuery))]
                && storage == old(storage) && !HistorySaved()
      ensures var request := Message(User, ClinicsRequestText(clinicQuery));
              var outcome := lookup(clinicQuery);
              !IsBlank(clinicQuery) && outcome.Failed? ==>
                messages == old(messages) + [request, Message(Bot, ClinicErrorText)]
                && storage == old(storage) && !HistorySaved()
    {
      var query := clinicQuery;
      if IsBlank(query) {
        return;
      }
      isLoading := true;
      var userMessage := Message(User, ClinicsRequestText(query));
      Append([userMessage]);

      ShowLookupOutcome(query, lookup(query));
      isLoading := false;
    }

    /**
     * `sendHealthTips`: the eight tips are appended as bot messages in their
     * fixed order, and the stored history becomes the new log.
     */
    method SendHealthTips()
      requires Valid()
      modifies this
      ensures Valid()
      ensures messages == old(messages) + TipMessages()
      ensures HistorySaved() && storage.visited == old(storage.visited)
      ensures text == old(text) && language == old(language) && isListening == old(isListening)
      ensures isLoading == old(isLoading) && clinicQuery == old(clinicQuery)
    {
      var tips := TipMessages();
      AppendAndSave(tips);
    }
  }

  /**
   * Reloading the page within the same `sessionStorage` session of the tab,
   * with no other tab writing the storage meanwhile: a new component is
   * mounted over the storage the old one left. It shows the stored history,
   * which is a prefix of the old log, and the whole old log when that was
   * saved.
   */
  method Reload(session: ChatBot) returns (reloaded: ChatBot)
    requires session.Valid()
    ensures reloaded.Valid()
    ensures reloaded.messages == session.storage.chatHistory.GetOr([])
    ensures reloaded.messages <= session.messages
    ensures session.HistorySaved() ==> reloaded.messages == session.messages
  {
    reloaded := new ChatBot(session.storage);
  }

  /**
   * One tab session as a client sees it through the contracts above:
   * stale history from an earlier `sessionStorage` session is dropped, a blank send
   * does nothing, a dictated question and its reply survive a reload, and a
   * failed clinic search is shown but not stored, so a second reload loses it.
   */
  method BrowserSessionScenario(stale: seq<Message>, reply: string -> AIOutcome, lookup: string -> ClinicOutcome)
    requires lookup("Pune").Failed?
  {
    var bot := new ChatBot(BrowserStorage(Some(stale), None));
    assert bot.messages == [];

    bot.EditText(" ");
    assert IsBlank(" ");
    bot.SendMessage(reply);
    assert bot.messages == [];

    bot.StartListening(true);
    assert bot.isListening;
    bot.OnRecognitionResult("fever");
    assert bot.text == "fever" && !bot.isListening;
    assert !IsBlank("fever") by {
      BlankIffAllWhitespace("fever");
      assert !IsJsWhitespace("fever"[0]);
    }
    bot.SendMessage(reply);
    assert bot.messages == [Message(User, "fever"), Message(Bot, FetchAIReply(reply("fever")))];
    assert bot.text == "" && !bot.isLoading;

    var reloaded := Reload(bot);
    assert reloaded.messages == bot.messages;

    bot.EditClinicQuery("Pune");
    assert !IsBlank("Pune") by {
      BlankIffAllWhitespace("Pune");
      assert !IsJsWhitespace("Pune"[0]);
    }
    bot.SearchClinics(lookup);
    assert |bot.messages| == 4 && bot.messages[3] == Message(Bot, ClinicErrorText);

    var reloadedAgain := Reload(bot);
    assert |reloadedAgain.messages| == 2;
  }
}
