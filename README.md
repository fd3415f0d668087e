# Bharat Health Ally chat session, modelled in Dafny

This project models the conversation session held by the `ChatBot` React
component of the Bharat Health Ally assistant (`client/src/components/ChatBot.js`).
The session keeps an ordered log of `{sender, text}` messages, an input
buffer, a clinic query buffer, the selected speech language (default
`hi-IN`), the `isLoading` and `isListening` flags, and two browser storage
slots: the saved log under `localStorage['chat-history']` and the
`sessionStorage['visited']` marker.

Each handler of the component is one method of the class `Session.ChatBot`.
Every asynchronous leaf is a parameter that states its outcome:

- the completion request is `reply: string -> AIOutcome`, applied to the buffer as typed: a payload whose `text` field is present or absent, or an exception;
- the place search is `lookup: string -> ClinicOutcome`, applied to the city query: a result list, or an exception;
- the speech recogniser is a flag saying whether the platform has one, plus one method per recogniser callback (`onresult`, `onerror`, `onend`).

Each handler is then one deterministic step from the state before it to
the state after it.

Files:

- `wrappers.dfy`: `Option`, standing for a storage slot or a JSON field that may be absent.
- `js_strings.dfy`: the two JavaScript built-ins the handlers rely on. `String.prototype.trim` decides that a buffer is blank. `encodeURIComponent` builds the map link; it is modelled exactly, with UTF-8 and upper-case `%XY` escapes.
- `chat_content.dfy`: messages and the pure parts of the handlers. These are the reply choice of `fetchAIReply`, the clinic link messages, the eight static tips and the eleven language options.
- `session.dfy`: the class `ChatBot`, a page reload (`Reload`) and one client walk-through (`BrowserSessionScenario`).

The class invariant `Valid()` says three things. The language is one of the
eleven supported codes. The visited marker is set. The stored history, when
there is one, is a **prefix** of the in-memory log. The model treats the
storage as owned by the one tab that runs the component (see "## Left out").

The invariant has to say "prefix" and not "equal" because the component
does not save the log after every change:

- `sendMessage` saves after each append;
- `sendHealthTips` saves;
- `searchClinics` saves only when it finds places;
- a clinic search that finds nothing, or that fails, shows its two messages but does not store them.

A reload after such a search and before the next save therefore loses that exchange; the next `sendMessage` or `sendHealthTips` saves it with the rest of the log. The contract of
`SearchClinics` states this, and `BrowserSessionScenario` shows it.

Three facts about the code that the contracts state:

- The user message of a clinic search is never saved on its own. A clinic search that finds nothing or fails writes nothing to storage.
- The clinic error message is one fixed string and does not carry the failure reason.
- The AI reply is used as returned: it is not trimmed. Both fallback notices are fixed strings and do not depend on the selected language.

## Model

| member | source | states |
|---|---|---|
| `JsStrings.TrimStartDropsLeadingWhitespace` | client/src/components/ChatBot.js:86 | trimming the start leaves a suffix of the input. Every character dropped is ECMAScript whitespace, and what is left is empty or starts with a non-whitespace character |
| `JsStrings.TrimEndDropsTrailingWhitespace` | client/src/components/ChatBot.js:86 | trimming the end leaves a prefix of the input. Every character dropped is whitespace, and what is left is empty or ends with a non-whitespace character |
| `JsStrings.BlankIffAllWhitespace` | client/src/components/ChatBot.js:86 | `!s.trim()` holds exactly when every character of `s` is whitespace (both directions) |
| `JsStrings.Trim` | client/src/components/ChatBot.js:86 | `s.trim()`, the trim of `text` at line 86 and of `clinicQuery` at line 108: `TrimStart` then `TrimEnd`, whose two lemmas above state what is removed |
| `JsStrings.IsBlank` | client/src/components/ChatBot.js:108 | `!s.trim()`, the blank test of both handlers (lines 86 and 108): the trim is the empty string, which by `BlankIffAllWhitespace` holds exactly when every character is whitespace |
| `JsStrings.Utf8` | client/src/components/ChatBot.js:126 | the UTF-8 bytes `encodeURIComponent` escapes: one to four values, each a byte; `Utf8Decodes` states which bytes they are |
| `JsStrings.Utf8Decodes` | client/src/components/ChatBot.js:126 | the bytes `encodeURIComponent` escapes are the shortest UTF-8 form of the character: one byte equal to the code point below 0x80; otherwise a lead byte in 0xC0..0xDF, 0xE0..0xEF or 0xF0..0xF4 for two, three or four bytes, continuation bytes in 0x80..0xBF, and the six-bit payloads read back give the code point |
| `JsStrings.HexDigit` | client/src/components/ChatBot.js:126 | an escape digit is `0`..`9` for values below ten and upper-case `A`..`F` from ten on |
| `JsStrings.PercentEncode` | client/src/components/ChatBot.js:126 | bytes become `%XY` triples: three characters per byte, all unreserved or `%` |
| `JsStrings.PercentEncodeAt` | client/src/components/ChatBot.js:126 | triple `k` of the escapes is `%`, then the high and the low hexadecimal digit of byte `k` |
| `JsStrings.EncodeChar` | client/src/components/ChatBot.js:126 | an unreserved character is kept as it is; any other character becomes three characters per UTF-8 byte, all unreserved or `%` |
| `JsStrings.EncodeCharEscapes` | client/src/components/ChatBot.js:126 | for a reserved character, triple `k` of its encoding is `%` and the two upper-case hexadecimal digits of UTF-8 byte `k` |
| `JsStrings.EncodeCharExample` | client/src/components/ChatBot.js:126 | `é` is the bytes 0xC3 0xA9 and is encoded as `%C3%A9` |
| `JsStrings.EncodeUriComponent` | client/src/components/ChatBot.js:126 | every output character of `encodeURIComponent` is unreserved or `%`, so no quote, angle bracket, ampersand or space survives. A string of unreserved characters is returned unchanged, and the output is never shorter than the input |
| `JsStrings.EncodedHasNoMarkup` | client/src/components/ChatBot.js:126 | no `"`, `<`, `>`, `&` or space appears in an encoded string |
| `JsStrings.EncodeConcat` | client/src/components/ChatBot.js:126 | encoding a concatenation is the concatenation of the encodings |
| `ChatContent.FetchAIReply` | client/src/components/ChatBot.js:71-82 | the reply is never empty. It is the payload's `text` when that is truthy, the fixed "no answer" notice when the payload has no truthy text, and the fixed "could not reach the AI" notice on any exception |
| `ChatContent.FallbackOnlyWithoutText` | client/src/components/ChatBot.js:78-81 | when the payload's text is not itself one of the two notices, the reply is a notice exactly when no truthy text came back |
| `ChatContent.BotMessages` | client/src/components/ChatBot.js:156 | mapping texts to bot messages keeps the count and the order: message `i` is a bot message with text `i` |
| `ChatContent.ClinicsRequestText` | client/src/components/ChatBot.js:110 | the user message of a clinic search, `Clinics near ${clinicQuery}`; `SearchClinics` states that it opens every non-blank search |
| `ChatContent.NoClinicsText` | client/src/components/ChatBot.js:119 | the notice for an empty result, ``⚠️ No clinics found near "${clinicQuery}".``; `ShowLookupOutcome` states that it is the single message added then |
| `ChatContent.ClinicLink` | client/src/components/ChatBot.js:126 | the anchor text for one place; its structure is given by the three `ClinicLink*` lemmas below |
| `ChatContent.ClinicLinkHrefIsEncodedName` | client/src/components/ChatBot.js:126 | the `href` value of a clinic link is exactly the encoded place name. The first `"` after the link head closes it, and the encoded name holds no `"`, `<` or `>` |
| `ChatContent.ClinicLinkLabelIsRawName` | client/src/components/ChatBot.js:126 | the anchor label is the place name verbatim, followed only by `</a><br/><br/>`. The name is not escaped |
| `ChatContent.ClinicLinkHasMapsMarker` | client/src/components/ChatBot.js:224-226 | every clinic link contains the `<a href="https://www.google.com/maps` marker, so the `isClinicLink` test of line 224 is true for it. That flag is computed but never read by the rendering, so this fact has no visible effect |
| `ChatContent.ClinicLinks` | client/src/components/ChatBot.js:124-127 | one link text per place, in result order |
| `ChatContent.ClinicMessages` | client/src/components/ChatBot.js:124-127 | `data.slice(0, 5).map(...)` yields `min(5, n)` bot messages; message `i` is the link for place `i` |
| `ChatContent.TipMessages` | client/src/components/ChatBot.js:144-156 | exactly eight bot messages, message `i` carrying tip `i` of the fixed list |
| `ChatContent.LanguageOptionsWellFormed` | client/src/components/ChatBot.js:173-185 | the picker offers eleven distinct language codes, and the default `hi-IN` (line 6) is one of them |
| `Session.ChatBot.constructor` | client/src/components/ChatBot.js:4-19 | the initial state: both buffers empty, language `hi-IN`, both flags false. On the first load in a new `sessionStorage` session of the tab the stored history is removed and the marker set before the history is read, so the log is empty. Otherwise the log is the stored history (empty when none is stored) and the storage is untouched. `Valid()` holds |
| `Session.ChatBot.EditText` | client/src/components/ChatBot.js:263 | the buffer becomes the typed value; nothing else changes |
| `Session.ChatBot.EditClinicQuery` | client/src/components/ChatBot.js:288 | the clinic query becomes the typed value; nothing else changes |
| `Session.ChatBot.SelectLanguage` | client/src/components/ChatBot.js:276 | the language becomes the picked supported code; nothing else changes |
| `Session.ChatBot.StartListening` | client/src/components/ChatBot.js:29-35 | without a recogniser nothing changes; with one the session is listening. Nothing else changes |
| `Session.ChatBot.OnRecognitionResult` | client/src/components/ChatBot.js:36-40 | the buffer becomes the transcript and listening stops; nothing else changes |
| `Session.ChatBot.OnRecognitionError` | client/src/components/ChatBot.js:41 | listening stops and the buffer is untouched |
| `Session.ChatBot.OnRecognitionEnd` | client/src/components/ChatBot.js:42 | listening stops and the buffer is untouched |
| `Session.ChatBot.Append` | client/src/components/ChatBot.js:111 | `setMessages(prev => [...prev, ...])`: the log grows by the given messages and the storage is not written |
| `Session.ChatBot.AppendAndSave` | client/src/components/ChatBot.js:88-92 | the updater that also calls `localStorage.setItem`: the log grows by the given messages and the stored history becomes the new log. The marker is untouched |
| `Session.ChatBot.SendMessage` | client/src/components/ChatBot.js:85-105 | a blank buffer leaves log, buffer, `isLoading` and storage unchanged. Otherwise the old log is kept as a prefix, and exactly two messages follow: the user message with the untrimmed buffer, then the bot message with `FetchAIReply` of the outcome for that buffer. The stored history then equals the log, the buffer is `''` and `isLoading` is false |
| `Session.ChatBot.ShowLookupOutcome` | client/src/components/ChatBot.js:118-140 | the branch on what the place search returned: with places, the intro and the `min(5, n)` link messages are added and the stored history becomes the log; with none, the single "no clinics found" message for the query; on an exception, the single error message. In the last two cases the storage is untouched |
| `Session.ChatBot.SearchClinics` | client/src/components/ChatBot.js:107-142 | a blank query changes nothing. Otherwise `Clinics near <q>` comes first. With places found, it is followed by the intro and the `min(5, n)` link messages, and the stored history equals the log. With no places it is followed by the single "no clinics found" message, and on an exception by the single error message; in both cases the storage is unchanged and no longer equals the log. `isLoading` ends false and the query is kept |
| `Session.ChatBot.SendHealthTips` | client/src/components/ChatBot.js:155-161 | the old log is kept as a prefix, followed by the eight tips in order as bot messages; the stored history equals the new log |
| `Session.Reload` | client/src/components/ChatBot.js:11-19 | remounting within the same `sessionStorage` session of the tab, with no other tab writing the storage meanwhile, shows the stored history. That history is a prefix of the old log, and it is the whole old log whenever the log was saved |

## Left out

- Presentation: all JSX, inline styles, the scroll-to-bottom effect (lines 168-171), the markup of the language picker and the whole of `client/src/App.js`. The model keeps only the state changes that the inputs' `onChange` handlers make (`EditText`, `EditClinicQuery`, `SelectLanguage`).
- Network I/O: the `fetch` calls to the completion and place-search services, URL construction, headers, the API key and the request body (model, temperature, token limit). Each is replaced by an outcome that is a function of the text sent.
- JSON: serialising and parsing the stored history. The stored value is the message list itself. `if (saved)` is false only for an empty string, which `JSON.stringify` never writes, so any stored history is restored.
- Speech synthesis (`speakText`) and the `setTimeout` staggering of spoken tips: output only. The model assumes `speakText` does not throw. In the code, a throw there inside `searchClinics` would be caught and would add the error message after the results.
- The speech recognition platform: creating a recogniser on every render, its `lang`, `interimResults` and `continuous` settings, and `recognition.start()` itself. Only the flag and buffer transitions are modelled.
- `alert` and `console.error`, and rendering message text as HTML (`dangerouslySetInnerHTML`). `ClinicLinkLabelIsRawName` states what reaches that rendering: the place name, unescaped.
- Payload `text` values that are truthy but not strings (numbers, objects), and places without `display_name`. The model's payload text is a string or absent, and every place has a name.
- The `URIError` that `encodeURIComponent` throws on a lone surrogate. Dafny characters are Unicode scalar values, so this input cannot be written.
- Several tabs: `localStorage` is shared by every tab of the origin, while `sessionStorage` belongs to one tab. The model treats both as owned by the one tab that runs the component, and `Valid()` and `Reload` hold only under that assumption. With two tabs open, the second tab's first load removes the shared `chat-history` (line 14), so a reload of the first tab shows an empty log. And every tab's `sendMessage` overwrites the shared history (lines 90 and 100), so a reload can show another tab's messages.
- Concurrency: React's batching of state updates, and interleaving of handlers while a request is in flight. Each handler is one sequential step.
- Session.ChatBot.SendMessage: the contract states the state after the reply has been added. The intermediate state while the request is in flight is not exposed (user message shown and saved, buffer cleared, `isLoading` true).
- Session.ChatBot.SearchClinics: the contract states the state after the outcome has been added. The intermediate state while the search is in flight is not exposed (user message shown but not saved, `isLoading` true).
