# Conversation coach: a Dafny model of the session lifecycle and the evaluation client

The application is a browser tool for rehearsing a difficult workplace
conversation with a voice agent, followed by an automated evaluation of the
transcript. This project models its core:

- the `App` component's state and handlers (`src/App.tsx`), as the class
  `AppComponent.App`. It covers the transport callbacks `onConnect`,
  `onDisconnect` and `onMessage`; `startConversation` and `sendPromptToAgent`;
  `endConversation`; `handleSendMessage`; the setup, new-conversation and
  try-again transitions; the feedback-area edits; and
  `evaluateConversationHandler`. Each handler is one atomic method whose
  `modifies` clause names exactly the fields it sets.
- the pure computations inside that component (module `Conversation`):
  - the summary counts and the `Xm Ys` duration, with JavaScript's truncating
    `%` written out;
  - the mapping of chat messages to an evaluation transcript;
  - the priming message;
  - the fallback evaluation;
  - the feedback-area list edits.
- the evaluation client (`src/utils.ts`, module `Evaluation`):
  - the transcript rendering into `You:`/`Agent:` lines;
  - the prompt layout;
  - the API-key guard;
  - the request that is made;
  - parse-or-throw;
  - the delegation from `evaluateConversation`.
- the JavaScript string primitives these rely on (module `Text`):
  - `trim()` over the ECMAScript whitespace set;
  - `join('\n')`;
  - the decimal rendering of integers.

  The module also defines `split('\n')` and a decimal reader. The application
  never calls them. They are the readers that state the round trips: the
  transcript reads back, the duration text reads back, a message id reads back.

The model takes what the outside world does as parameters:

- whether a transport call threw or rejected;
- the conversation id a started session resolves to;
- the clock reading in milliseconds;
- the API key;
- what the chat-completion exchange produced: a failed request, or a completion
  that `JSON.parse` rejected or turned into a result.

Two ghost logs on `App` record what reached the outside: `sent` holds the texts
handed to `sendUserMessage` without a throw, and `requests` holds the
chat-completion requests made.

`App.Valid()` holds between handlers and every handler preserves it. It states
three things:
- the feedback areas hold no duplicates;
- a stored summary's user and agent counts add up to its message count;
- no evaluation is in flight.

In these places the model follows the code, which differs from what the user interface suggests:

- `onConnect` does not clear an earlier summary or evaluation. It only hides
  the summary and setup screens (src/App.tsx:192-200).
- "Start new conversation" keeps the scenario, the prompt and the feedback
  areas. Only the "Reset to Defaults" button restores them (`ResetToDefaults`).
- A failed `startSession` appends an error message and leaves the setup
  screen hidden. It does not return to setup.
- A returned evaluation's score is not checked against 1..10. Only the fallback
  is guaranteed in range (`SettledEvaluation`).
- The feedback areas are passed to `evaluateConversation`, which ignores them,
  so they never reach the prompt.

## Model

| member | source | states |
|---|---|---|
| Text.Trim | src/App.tsx:402 | `s.trim()` (also at src/App.tsx:246, 280, 291, 350 and 383). Its own contract is weaker and only says the result is no longer than `s`, as admitted under Left out. `TrimBlank` and `TrimIsSlice` state what it means |
| Text.TrimBlank | src/App.tsx:402 | `s.trim()` is empty (falsy) exactly when every character of `s` is JavaScript whitespace; otherwise it starts and ends with a non-whitespace character |
| Text.TrimIsSlice | src/App.tsx:280-281 | the trimmed text is the slice of `s` after its leading whitespace, with only whitespace cut off on either side |
| Text.TrimIdempotent | src/App.tsx:280-281 | trimming an already trimmed entry changes nothing |
| Text.JoinLines | src/utils.ts:43 | `lines.join('\n')`: the result is empty exactly for no lines or a single empty line. Its meaning is stated by `SplitJoin` and `JoinSplit` |
| Text.SplitLines | src/utils.ts:43 | a reader, not called by the source: `split('\n')` yields at least one piece and no piece contains a newline. It is the inverse of the `join('\n')` at this line |
| Text.SplitJoin | src/utils.ts:43 | splitting a newline-joined list of newline-free lines gives the list back |
| Text.JoinSplit | src/utils.ts:43 | joining the pieces of a split gives the original string back, for every string |
| Text.IntToString | src/App.tsx:233 | `String(i)` and `${i}` for an integer, as in `Date.now().toString()` (src/App.tsx:210) and the duration text: non-empty, made of digits and a minus sign |
| Text.NatToString | src/App.tsx:233 | the decimal text of a number is non-empty, all digits, and has no leading zero |
| Text.ParseNatToString | src/App.tsx:233 | the decimal text of a natural number reads back as that number |
| Text.ParseIntToString | src/App.tsx:233 | the text of an integer (with a minus sign when negative) reads back as that integer |
| Evaluation.HasApiKey | src/utils.ts:32 | the key passes `!apiKey` exactly when it is defined and not the empty string |
| Evaluation.RenderLine | src/utils.ts:43 | a rendered line is never empty, and it has no newline exactly when the message text has none |
| Evaluation.RenderTranscript | src/utils.ts:43 | the transcript block, the lines joined by `'\n'`, is empty exactly for an empty transcript (which is why the round trip needs a non-empty one) |
| Evaluation.BuildPrompt | src/utils.ts:36-59 | the template literal itself. Its layout is stated by `PromptLayout` |
| Evaluation.EvaluationError.Message | src/utils.ts:33 | the text of the `Error` thrown for a missing key (`OpenAI API key is not set`) and, at src/utils.ts:90, for an unparsable completion (`Failed to parse evaluation response`); only a transport failure has no message of the client's own |
| Evaluation.EvaluateWithOpenAI | src/utils.ts:27-92 | a request is made iff the key is set and non-empty. Without a key the result is the missing-key error. The request goes to the chat-completion endpoint with the fixed system message, and carries the built prompt, `Bearer <key>`, `gpt-4` and temperature 0.7. The result succeeds iff a completion parsed, and then it is exactly the parsed value. A failed request gives the transport error and an unparsable completion gives the parse error, never a partial result |
| Evaluation.EvaluateConversation | src/utils.ts:20-25 | returns exactly what `evaluateWithOpenAI` returns for the same transcript, scenario and outcomes |
| Evaluation.ParseRenderLine | src/utils.ts:43 | a rendered line starts with `You: ` iff the speaker is the user and with `Agent: ` iff the speaker is the agent, and reads back as that speaker and text |
| Evaluation.ParseRenderedLines | src/utils.ts:43 | the rendered lines, one per message in order, read back as the messages' speakers and texts |
| Evaluation.RenderRoundTrip | src/utils.ts:43 | for a non-empty transcript (src/App.tsx:302 guarantees one) in which no message text holds a newline, splitting the rendered transcript on newlines and stripping the labels recovers the speaker/text sequence |
| Evaluation.NewlineBreaksRoundTrip | src/utils.ts:43 | one agent message whose text starts with a newline (as the fixture replies do) renders to a block that does not read back |
| Evaluation.PromptLayout | src/utils.ts:36-59 | the prompt consists of the fixed instructions, `SCENARIO DESCRIPTION:`, the scenario verbatim, `TRANSCRIPT:`, the rendered transcript and the JSON request, in that order and at those positions |
| Evaluation.PromptDependsOnlyOnTurns | src/utils.ts:36-59 | transcripts with the same speakers and texts give the same prompt: context, duration and timestamps do not reach it |
| Evaluation.PromptDeterminesScenario | src/utils.ts:36-59 | for one transcript, equal prompts mean equal scenario descriptions |
| Conversation.CountUser | src/App.tsx:229 | `messages.filter(m => m.isUser).length`, at most the number of messages |
| Conversation.CountAgent | src/App.tsx:230 | `messages.filter(m => !m.isUser).length`, at most the number of messages |
| Conversation.CountsPartition | src/App.tsx:229-234 | the user count plus the agent count is the message count |
| Conversation.CountsAppend | src/App.tsx:229-230 | appending one message raises exactly the count of its side by one |
| Conversation.JsRem | src/App.tsx:227 | JavaScript's `%`: the remainder differs from the dividend by a multiple of the divisor, lies in `0..b-1` for a non-negative dividend and in `-(b-1)..0` for a negative one |
| Conversation.DurationParts | src/App.tsx:226-227 | `Math.floor(d / 60000)` and `Math.floor((d % 60000) / 1000)`. What they mean is stated by `DurationBounds`, `NegativeDuration` and `DurationRoundTrip` |
| Conversation.FormatDuration | src/App.tsx:233 | the `${m}m ${s}s` text of those parts. `DurationRoundTrip` shows that it reads back |
| Conversation.DurationBounds | src/App.tsx:225-227 | for a non-negative elapsed time the seconds lie in 0..59, and `60000*m + 1000*s <= d < 60000*m + 1000*s + 1000` |
| Conversation.NegativeDuration | src/App.tsx:225-227 | a negative elapsed time gives negative minutes and seconds in -60..0 |
| Conversation.NegativeDurationExamples | src/App.tsx:225-227 | -1 ms shows as `-1m -1s` and -59999 ms as `-1m -60s` |
| Conversation.DurationRoundTrip | src/App.tsx:233 | the `${m}m ${s}s` text reads back as exactly the minutes and seconds it was made from |
| Conversation.Summarize | src/App.tsx:224-237 | a summary exists iff a start time is recorded. It counts every message, the user's and the agent's messages (adding up to the total), and formats the elapsed time |
| Conversation.NewMessage | src/App.tsx:404-409 | a message (also at src/App.tsx:209-214 and 389-394) carries the given text, side and clock reading |
| Conversation.SendFailureMessage | src/App.tsx:421-426 | the error after a failed send is an agent message with the fixed apology text, stamped with the clock reading |
| Conversation.MessageIdsReadBack | src/App.tsx:210 | an id is the clock reading in decimal and reads back as it, while the send-failure id reads back as one millisecond later. Two messages made in the same millisecond share an id |
| Conversation.ReceivedText | src/App.tsx:211 | a missing or empty payload text becomes `Received audio response`, any other is kept; the result is never empty |
| Conversation.InboundToMessage | src/App.tsx:209-214 | the appended message is the user's iff the source is `user`, and carries the payload text when there is one, `Received audio response` when the text is missing or empty |
| Conversation.EvaluationTranscript | src/App.tsx:308-316 | same length and order as the messages, speaker `user` iff `isUser`, same texts and timestamps. The context is `General conversation practice` when the prompt is empty, otherwise the prompt. The duration is `Unknown` when there is no summary or its duration is empty |
| Conversation.EvaluationTranscriptReadsBack | src/App.tsx:308-316 | the prompt's transcript block for newline-free chat messages reads back as the chat's speakers and texts in order |
| Conversation.PrimingMessage | src/App.tsx:358 | the priming text is the prompt, a blank line, then the spoken-dialogue instructions |
| Conversation.PrimingInjective | src/App.tsx:358 | different prompts give different priming texts |
| Conversation.SettledEvaluation | src/App.tsx:330-345 | any thrown error gives the fixed fallback with score 7; a returned result is kept; the stored evaluation is in 1..10 whenever a returned one was |
| Conversation.CanStartFromSetup | src/App.tsx:291 | the guard: the trimmed scenario and the trimmed prompt are both non-empty |
| Conversation.CanSend | src/App.tsx:402 | the guard: the trimmed input is non-empty, no send is loading, and the session is connected |
| Conversation.AddFeedbackArea | src/App.tsx:279-284 | the trimmed input is appended and the input cleared only when it is non-empty and not yet listed, otherwise nothing changes; a duplicate-free list stays duplicate-free |
| Conversation.RemoveFeedbackArea | src/App.tsx:286-288 | exactly the entries equal to the area are removed, every other entry is kept as often as it occurred |
| Conversation.RemovePreservesNoDuplicates | src/App.tsx:286-288 | removal keeps a duplicate-free list duplicate-free |
| Conversation.RemoveDistributes | src/App.tsx:286-288 | removal distributes over concatenation, so the surviving entries keep their order |
| Conversation.RemoveAbsent | src/App.tsx:286-288 | removing an unlisted area leaves the list as it was |
| Conversation.DefaultFeedbackAreasDistinct | src/App.tsx:176 | the three default feedback areas are distinct |
| AppComponent.App.constructor | src/App.tsx:169-189 | the initial state: no messages, not connected, the default persona prompt, scenario and feedback areas, the setup screen shown, nothing sent |
| AppComponent.App.SendPromptToAgent | src/App.tsx:349-363 | nothing is sent for a blank prompt; otherwise the priming text is sent unless the transport throws, which is swallowed |
| AppComponent.App.OnConnect | src/App.tsx:192-200 | connected, not loading, start time recorded, summary and setup hidden, priming text sent |
| AppComponent.App.OnDisconnect | src/App.tsx:201-206 | not connected, no conversation id, not loading |
| AppComponent.App.OnMessage | src/App.tsx:207-216 | exactly one message is appended at the end and the earlier ones are unchanged; the counts still partition the transcript |
| AppComponent.App.EndConversation | src/App.tsx:219-243 | a rejected `endSession` changes nothing. Otherwise the prompt editor closes, a recorded start time yields the summary of the messages and shows it, and the start time is cleared (so a second call makes no new summary) |
| AppComponent.App.HandleSetPrompt | src/App.tsx:245-249 | the prompt editor closes unless the prompt is blank |
| AppComponent.App.HandleClearPrompt | src/App.tsx:251-254 | the prompt is emptied and its editor closed |
| AppComponent.App.HandleCloseSummary | src/App.tsx:297-299 | the summary is hidden |
| AppComponent.App.HandleStartNewConversation | src/App.tsx:256-264 | messages, summary and evaluation cleared, setup shown; prompt, scenario and feedback areas unchanged |
| AppComponent.App.ResetToDefaults | src/App.tsx:607-611 | scenario, prompt and feedback areas back to their initial values |
| AppComponent.App.StartConversation | src/App.tsx:365-399 | on a started session the id is stored, the editor closed and the priming text sent for a non-blank prompt. On a rejected start one agent error message is appended. Loading is off either way |
| AppComponent.App.HandleStartConversationFromSetup | src/App.tsx:290-295 | a session is started, and setup left, only when both the trimmed scenario and the trimmed prompt are non-empty; otherwise nothing changes |
| AppComponent.App.HandleTryConversationAgain | src/App.tsx:266-277 | messages, summary and evaluation cleared, setup hidden, then a session is started with the same prompt, scenario and feedback areas |
| AppComponent.App.HandleAddFeedbackArea | src/App.tsx:279-284 | the list and input become `AddFeedbackArea` of the old ones, keeping the list duplicate-free |
| AppComponent.App.HandleRemoveFeedbackArea | src/App.tsx:286-288 | the list becomes `RemoveFeedbackArea` of the old one, keeping it duplicate-free |
| AppComponent.App.HandleSendMessage | src/App.tsx:401-430 | nothing changes when the trimmed input is empty, a send is loading or there is no connection. Otherwise the untrimmed input is appended as a user message and sent, the input cleared and loading set. A throwing send instead appends one agent error message, stamped with a second clock reading taken after the failure (src/App.tsx:421-425), and clears loading |
| AppComponent.App.EvaluateConversationHandler | src/App.tsx:301-346 | an empty transcript changes nothing. Otherwise the mapped transcript is evaluated against the scenario, and the result or the fallback is stored. Without a key no request is made and the fallback is stored. No evaluation is in flight afterwards |
| AppComponent.App.SetInputText | src/App.tsx:880 | the input box holds the typed text |
| AppComponent.App.SetAgentPrompt | src/App.tsx:533 | the prompt holds the typed text |
| AppComponent.App.SetScenarioDescription | src/App.tsx:515 | the scenario holds the typed text |
| AppComponent.App.SetFeedbackAreaInput | src/App.tsx:576 | the feedback-area input holds the typed text |
| Scenarios.PrimingSentTwice | src/App.tsx:383-385 | starting from setup and then connecting sends the priming text twice, from `startConversation` and from `onConnect` |
| Scenarios.SecondSendIgnored | src/App.tsx:401-413 | after an accepted send loading stays on, so a second send appends and sends nothing |
| Scenarios.SecondEndKeepsSummary | src/App.tsx:224-242 | ending twice leaves the first call's summary, counting every message, showing |
| Scenarios.MissingKeyFallsBack | src/App.tsx:334-342 | without an API key, evaluating a non-empty transcript makes no request and stores the fallback, score 7 |
| Scenarios.RetryKeepsScenario | src/App.tsx:266-277 | trying again keeps the edited scenario and prompt while the transcript starts empty |

## Left out

- The JSX markup, Tailwind classes and the score bar width `(score / 10) * 100`. They are presentation, and the width is floating-point arithmetic.
- The voice transport's `useConversation`, `startSession`, `endSession` and `sendUserMessage`. Each becomes a success or failure parameter, plus the `sent` log.
- The session configuration that `startConversation` builds from environment variables. It only goes to the transport.
- The `fetch` call, `response.json()` and `data.choices[0]`. They are the network and a foreign parser; the exchange is the `BackendOutcome` parameter.
- The score's number type. `score` is a JavaScript `number` (src/utils.ts:2), so a parsed completion can carry 7.5 or a value outside 1..10. The model's `EvaluationResult.score` is an `int`, so it does not represent a fractional score.
- `JSON.parse`'s result shape. The model treats a parsed completion as an `EvaluationResult`, as the client does; it does not model a completion whose JSON has other fields.
- Evaluation.EvaluationError.Message: a transport failure carries the runtime's own error text, so its message is not modelled.
- `Date.now()`, `new Date()` and `import.meta.env` are parameters. Ids made from the clock are not claimed to be unique: two messages in the same millisecond share an id. `handleSendMessage` reads the clock again after a failed send, and the model passes that reading as `nowAfter`, which may be earlier than `now` if the clock is set back. The id and the timestamp of one message are two calls in the source (`Date.now()` and `new Date()`, e.g. src/App.tsx:405 and 408); the model takes them as one reading.
- Asynchronous interleaving. This covers React's stale closures and the un-awaited `sendUserMessage` promise, whose rejection is not caught. Each handler is one atomic step, so the model does not capture an `onMessage` landing between `setIsEvaluating(true)` and the end of `evaluateConversationHandler` (src/App.tsx:304-345).
- The test-mode fixtures and their hard-coded summary. The model takes the test mode to be off.
- `console.log` and `console.error` calls.
- `handleKeyPress` (Enter without Shift calls `handleSendMessage`). It is keyboard plumbing over a modelled handler.
- The header buttons that reopen setup or start a session directly, and the buttons that open and close the prompt editor. They set a single flag or call the modelled `StartConversation`.
- Text.Trim: it states only that the result is no longer than the input. What it means is stated by `TrimBlank` and `TrimIsSlice`, which keeps the handler proofs small.
