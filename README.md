# Chatbot generator: conversation and configuration core

A Dafny model of the logic inside the `ChatbotGenerator` React component of
the chatbot generator: the feature toggle, the personality and welcome-message
tables, the construction of the chat-completion request, the text of error
replies, and the preview conversation's state (transcript, typed input,
in-flight flag, preview switch) with the handlers that update it.

Modules, one per concern of the component:

- `JsString` (`js_string.dfy`): the JavaScript string behaviour the component
  relies on: `trim` and its whitespace set, `slice(0, n)`, the decimal text
  of a number in a template literal, `s || fallback`, and template pieces
  joined into one string.
- `ChatConfig` (`config.dfy`): the configuration object. Website type,
  purpose and tone are enumerations, since they are only ever set from fixed
  option lists.
- `Features` (`features.dfy`): the selected-features list and its toggle.
- `Personality` (`personality.dfy`): the role table (website type by purpose)
  and the tone table.
- `Welcome` (`welcome.dfy`): the welcome message.
- `Transcript`, `Payload` (`transcript.dfy`, `payload.dfy`): transcript
  entries; the system directive, the message list and the request body.
- `Replies` (`replies.dfy`): the outcome of a completion call and the bot
  entry it becomes.
- `ChatMachine` (`chat_machine.dfy`): the conversation as transitions over a
  state value, with the properties of the handlers proved as lemmas.
- `Conversation` (`conversation.dfy`): the class `ChatSession`, whose fields
  the handlers update in place. Each method is specified by a transition in
  `ChatMachine`: `HandleFeatureToggle` by `ToggleFeature`, `InitializeChat` by
  `Initialize`, `HandleAIResponse` by `Respond`, `CompleteResponse` by
  `Complete` and `HandleSendMessage` by `Send`. `RateLimitedSession` is a
  client that drives a session through a refused second send and a 429 reply.

`handleAIResponse` is split at its `await`. `HandleAIResponse` is the
synchronous part: the missing-key branch, or raising the in-flight flag and
issuing the request. `CompleteResponse` is what runs once the call has
finished. The call's outcome is an input: a reply, an HTTP error with status
and body, or a thrown error with its message. The transcript that
`handleAIResponse` reads is the one its closure captured before the user's
entry was appended, and the model passes it explicitly.

Restarting the preview (`initializeChat`) is possible while a request is in
flight. A reply that arrives after a restart is appended to the new
transcript, right after the welcome message; nothing discards it
(`ChatMachine.LateReplyAfterRestart`).

## Model

| member | source | states |
|---|---|---|
| `JsString.Trim` | ChatbotGenerator.jsx:147 | `trim()` leaves nothing exactly when every character is ECMAScript whitespace or a line terminator; otherwise the result starts and ends on a non-blank |
| `JsString.TrimStart` | ChatbotGenerator.jsx:147 | what is stripped in front is whitespace, and what remains is a suffix starting on a non-blank |
| `JsString.TrimEnd` | ChatbotGenerator.jsx:147 | what is stripped at the end is whitespace, and what remains is a prefix ending on a non-blank |
| `JsString.Take` | ChatbotGenerator.jsx:126 | `slice(0, n)` is a prefix of the text of length `min(|s|, n)` |
| `JsString.NatToDecimal` | ChatbotGenerator.jsx:126 | a status interpolated into the message is a non-empty run of digits with no leading zero |
| `JsString.DecimalRoundTrip` | ChatbotGenerator.jsx:126 | the decimal text determines the status: reading it back gives the number |
| `JsString.JoinPartOccurs` | ChatbotGenerator.jsx:98 | each piece of a template literal occurs in the result right after the pieces before it |
| `JsString.JoinEndsWithLast` | ChatbotGenerator.jsx:98 | a template literal's text ends with its last piece |
| `JsString.JoinConcat` | ChatbotGenerator.jsx:98 | the text of two runs of template pieces is the text of the first followed by the text of the second |
| `JsString.BlankIsTrimmedEmpty` | ChatbotGenerator.jsx:85 | a text counts as blank exactly when `trim()` leaves nothing |
| `JsString.OrDefault` | ChatbotGenerator.jsx:77 | `s \|\| fallback` keeps a non-empty text, and is empty only when both are |
| `ChatConfig.DefaultConfig` | ChatbotGenerator.jsx:6-17 | a session starts as a portfolio support bot with a friendly tone and colour "#007bff", no features, empty company, bot name, URL and industry, and the key from the environment |
| `Features.Without` | ChatbotGenerator.jsx:37 | the filter never lengthens the list and never leaves the id in it |
| `Features.WithoutRemovesExactly` | ChatbotGenerator.jsx:37 | the filter drops every occurrence of the id and keeps every occurrence of every other id (multiset equal to the input with the id's count set to zero) |
| `Features.WithoutConcat` | ChatbotGenerator.jsx:37 | the filter distributes over concatenation, so the kept ids stay in their original order |
| `Features.WithoutAbsent` | ChatbotGenerator.jsx:37 | filtering out an id the list does not hold returns the list unchanged |
| `Features.WithoutNoDuplicates` | ChatbotGenerator.jsx:37 | filtering never introduces a duplicate |
| `Features.Toggle` | ChatbotGenerator.jsx:33-40 | after a toggle the id is present exactly when it was absent, and every other id is present exactly when it was |
| `Features.ToggleIsSymmetricDifference` | ChatbotGenerator.jsx:33-40 | as a set, a toggle is the symmetric difference with `{id}` |
| `Features.ToggleNoDuplicates` | ChatbotGenerator.jsx:33-40 | a duplicate-free feature list stays duplicate-free |
| `Features.ToggleTwiceAbsent` | ChatbotGenerator.jsx:33-40 | toggling an absent id twice restores the original list exactly |
| `Features.ToggleTwicePresent` | ChatbotGenerator.jsx:33-40 | toggling a present id twice in a duplicate-free list gives the same ids: the others in their order, then the toggled one last |
| `Features.ToggleStaysInCatalog` | ChatbotGenerator.jsx:25-40 | toggling ids from the five-entry feature catalogue only ever leaves catalogue ids selected |
| `Personality.RoleDescription` | ChatbotGenerator.jsx:43-59 | every cell of the role table ends in a full stop |
| `Personality.ToneModifier` | ChatbotGenerator.jsx:61-64 | both tone texts end in a full stop |
| `Personality.GenerateChatbotPersonality` | ChatbotGenerator.jsx:42-70 | the role can be read back to the website type and purpose that chose it, and the tone text is the friendly one exactly when the tone is friendly |
| `Personality.PersonalityDependsOnlyOnSelectors` | ChatbotGenerator.jsx:66-69 | the role depends only on website type and purpose, the tone text only on the tone |
| `Personality.RoleCellInvertsTable` | ChatbotGenerator.jsx:43-59 | every cell of the 3 by 3 role table can be read back to its website type and purpose |
| `Personality.PersonalityIdentifiesSelectors` | ChatbotGenerator.jsx:42-70 | equal roles mean equal website type and purpose, and equal tone texts mean equal tones: all nine roles and both tone texts differ |
| `Welcome.WelcomeMessage` | ChatbotGenerator.jsx:72-82 | the message is the tone's greeting followed by a non-empty purpose text |
| `Welcome.WelcomeGreeting` | ChatbotGenerator.jsx:73 | the message starts with "👋 Hi there!" exactly when the tone is friendly, and with "Hello!" exactly when it is professional |
| `Welcome.WelcomeEmbedsCompany` | ChatbotGenerator.jsx:77 | for lead generation the company name, or "our site" when it is empty, appears verbatim right after "Welcome to " |
| `Welcome.WelcomeDependsOnlyOn` | ChatbotGenerator.jsx:72-82 | the message depends only on tone, purpose and, for lead generation, the company name shown |
| `Welcome.PurposeTell` | ChatbotGenerator.jsx:75-79 | the three purpose texts end differently ("y?", "u.", "g.") |
| `Welcome.WelcomeIdentifiesTemplate` | ChatbotGenerator.jsx:72-82 | equal messages mean equal tone and purpose, so there are exactly six messages for a given company name |
| `Welcome.SupportFriendlyScenario` | ChatbotGenerator.jsx:76 | friendly support greets with "👋 Hi there! I'm here to help you. What can I assist you with today?" |
| `Welcome.LeadsProfessionalScenario` | ChatbotGenerator.jsx:77 | professional lead generation for Acme reads "Hello! Welcome to Acme! I'd love to learn how we can help you." |
| `Payload.SystemDirective` | ChatbotGenerator.jsx:98 | the directive opens with "You are a " and ends with " Use friendly emojis." for a friendly tone, otherwise with " Keep responses short (1-2 sentences)." |
| `Payload.DirectiveFields` | ChatbotGenerator.jsx:98 | the system directive names the purpose, the bot ("Assistant" if unnamed), the website type, the company ("this company" if unnamed), the website ("N/A" if none), the tone and the length rule, each right after the text before it |
| `Payload.DirectiveScenario` | ChatbotGenerator.jsx:98 | an unnamed professional support bot for a business reads "You are a support chatbot named \"Assistant\" for a business website. Company: this company. Website: N/A. Tone: professional. Keep responses short (1-2 sentences)." |
| `Payload.DirectiveEmojiClause` | ChatbotGenerator.jsx:98 | the directive ends with " Use friendly emojis." exactly when the tone is friendly |
| `Payload.SystemDirectiveIgnoresOtherFields` | ChatbotGenerator.jsx:98 | industry, colour, features and key do not affect the directive |
| `Payload.ToMessage` | ChatbotGenerator.jsx:100-103 | an entry becomes a non-system message from which the entry can be read back |
| `Payload.HistoryMessages` | ChatbotGenerator.jsx:100-103 | one message per transcript entry, in order, with the entry's text; the role is "user" exactly for user entries and never "system" |
| `Payload.HistoryRoleNames` | ChatbotGenerator.jsx:101 | the role name sent for an entry is "user" for a user entry and "assistant" for a bot entry |
| `Payload.HistoryRoundTrip` | ChatbotGenerator.jsx:100-103 | mapping the messages back gives the transcript: nothing is dropped or reordered |
| `Payload.BuildMessages` | ChatbotGenerator.jsx:95-105 | the list has two more messages than the transcript: the system directive first, the new user message last, and the transcript in between |
| `Payload.BuildPayload` | ChatbotGenerator.jsx:93-108 | the request names model "llama-3.1-8b-instant", caps the reply at 100 tokens and carries that message list |
| `Replies.ApiErrorMessage` | ChatbotGenerator.jsx:126 | the error message starts with "API " and its length is bounded by the status digits plus 100 characters of body |
| `Replies.ReplyText` | ChatbotGenerator.jsx:132-140 | a reply is shown as it came, and every failure starts with "⚠️ Error: " |
| `Replies.HttpErrorEntry` | ChatbotGenerator.jsx:123-140 | an HTTP error entry is "⚠️ Error: API <status>: " followed by the first min(length, 100) characters of the body, and the status reads back from it |
| `Replies.HttpErrorIsThrown` | ChatbotGenerator.jsx:126-140 | the status error is reported exactly like any thrown error carrying the same message |
| `Replies.FailuresArePrefixed` | ChatbotGenerator.jsx:132-140 | every failure entry starts with "⚠️ Error: ", and a successful reply is shown as it came |
| `Replies.RateLimitedScenario` | ChatbotGenerator.jsx:123-140 | a 429 with body "rate limited" becomes "⚠️ Error: API 429: rate limited" |
| `ChatMachine.Start` | ChatbotGenerator.jsx:6-21 | the component mounts with the default configuration holding the given key, no features, no transcript, nothing typed, the preview hidden and nothing in flight |
| `ChatMachine.ToggleFeature` | ChatbotGenerator.jsx:33-40 | only the feature list changes, and in it only the toggled id's membership |
| `ChatMachine.Initialize` | ChatbotGenerator.jsx:161-165 | the transcript becomes the one welcome entry, opening with the tone's greeting, and the preview opens; nothing else changes |
| `ChatMachine.Respond` | ChatbotGenerator.jsx:84-108 | a request is issued exactly when the key is not blank: it is the payload built from the configuration, the captured transcript and the user message (the directive, the transcript, the message), and the flag goes up; otherwise only the missing-key entry is appended and the flag stays as it was; configuration, input and preview are untouched |
| `ChatMachine.Complete` | ChatbotGenerator.jsx:132-143 | exactly one bot entry with the reply text is appended, and the flag goes down; nothing else changes |
| `ChatMachine.Send` | ChatbotGenerator.jsx:146-152 | a request is only issued for non-blank input with nothing in flight, and then the flag is up; the transcript only grows and the configuration stays |
| `ChatMachine.SendGuard` | ChatbotGenerator.jsx:147 | a send changes nothing and issues nothing exactly when the input is blank after trimming or a call is in flight |
| `ChatMachine.SendAccepted` | ChatbotGenerator.jsx:84-152 | an accepted send appends one user entry with the untrimmed input and clears the input; with a blank key it then appends one "❌ Add your Groq API key first!" entry, issues nothing and leaves the flag down; otherwise it raises the flag and issues a request |
| `ChatMachine.SendIssued` | ChatbotGenerator.jsx:84-151 | a send that issues a request found input, no call in flight and a key, and left only the user entry, a cleared input and the raised flag |
| `ChatMachine.HistoryMessagesSnoc` | ChatbotGenerator.jsx:100-103 | mapping a transcript with one more entry maps that entry last |
| `ChatMachine.SendRequestMirrorsTranscript` | ChatbotGenerator.jsx:95-150 | the request is the directive followed by the updated transcript mapped entry by entry, so the new message appears once, last |
| `ChatMachine.InFlightGuard` | ChatbotGenerator.jsx:90-147 | while a request is in flight a second send issues nothing and changes nothing, whatever was typed |
| `ChatMachine.SendThenComplete` | ChatbotGenerator.jsx:133-149 | a send and its completion add exactly the user entry and one bot entry, and leave the flag down |
| `ChatMachine.TranscriptAppendOnly` | ChatbotGenerator.jsx:133-149 | sends and completions only append to the transcript |
| `ChatMachine.InitializeSeedsWelcome` | ChatbotGenerator.jsx:161-165 | starting the preview leaves exactly one bot entry, the welcome message, and shows the preview |
| `ChatMachine.LateReplyAfterRestart` | ChatbotGenerator.jsx:143-165 | a restart while a call is in flight does not cancel it: the late reply follows the new welcome message |
| `Conversation.ChatSession.constructor` | ChatbotGenerator.jsx:6-21 | the component mounts with the default configuration, an empty transcript and input, the preview hidden and no call in flight |
| `Conversation.ChatSession.HandleFeatureToggle` | ChatbotGenerator.jsx:33-40 | the feature list is toggled and nothing else changes |
| `Conversation.ChatSession.InitializeChat` | ChatbotGenerator.jsx:161-165 | the transcript becomes the welcome entry and the preview opens; nothing else changes |
| `Conversation.ChatSession.HandleAIResponse` | ChatbotGenerator.jsx:84-108 | the missing-key entry, or the raised flag and the request built from the captured transcript |
| `Conversation.ChatSession.CompleteResponse` | ChatbotGenerator.jsx:132-143 | one bot entry with the reply or the error text, then the flag goes down |
| `Conversation.ChatSession.HandleSendMessage` | ChatbotGenerator.jsx:146-152 | the guard, the user entry, the response handler on the transcript from before that entry, then the input cleared |

## Left out

- The network call and response parsing (`fetch`, `response.ok`, `response.text()`, `response.json()`). These are I/O. The outcome of a call is an input to `CompleteResponse`.
- React's asynchronous state updates: each handler is one atomic step, and other steps can only come between issuing a request and its completion.
- `console.log` and `console.error`: logging only.
- `generateEmbedCode`: its content is dominated by `JSON.stringify`, a library serialiser the model cannot see. The colour is substituted verbatim.
- `downloadConfig`: Blob, object URL and anchor click, all browser I/O.
- The view tree, `alert`, the wizard's `step` navigation and `handleKeyPress` (Enter without Shift calls `handleSendMessage`). These are UI plumbing.
- The `import.meta.env` default for the key: the key is a constructor parameter.
- The sampling temperature 0.7: a one-value datatype, since no arithmetic is done on it.
- `generateChatbotPersonality` is never called by the component. It is modelled as the function it is.
- Senders are an enumeration: the component only ever writes 'user' and 'bot'.
- JsString.Take: counts Unicode scalar values, where JavaScript's `slice` counts UTF-16 code units. For a body with characters outside the Basic Multilingual Plane, the 100-character excerpt can differ.
- main.jsx is not part of this model: it only mounts the component.
