# Research-partner chatbot: transcript and session state

This project models the logic inside the single-page research-partner chatbot
(`app.py`). The page keeps a per-session store with two entries:

- a researcher profile `{name, field, is_initialized}`;
- an append-only list of role-tagged messages.

On each run of the page script:

1. the profile is created if it is missing;
2. the profile form is shown until it is submitted with both fields filled in;
3. the history is created with the system prompt and a personalised greeting;
4. the history is shown without its system messages;
5. when the researcher types something, the message is appended, the whole
   history is formatted into one transcript and sent to the completion service,
   and the reply is appended if the call succeeds.

The project has two modules:

- `Transcript` (`transcript.dfy`): messages and roles, the speaker labels, the
  formatter `FormatChatHistory` (one `label: content` line per message, joined by
  newlines), a newline splitter that undoes it, and the display filter `Displayed`.
- `Session` (`session.dfy`): the profile and store records, the invariant `Valid`,
  one specification function per step (`StepInitUserInfo`, `StepSubmit`,
  `StepInitChatHistory`, `StepTurn`, `StepScript`), lemmas about those steps, and
  the class `SessionState`. The class holds the store's two entries as fields that
  its methods update in place. Each method is proved equal to its step function.

The call to the completion service is a parameter `outcome: Completion` of the turn,
`Success(text) | Failure`. Whether the client could be built is a parameter `setupOk`
of a script run. The form's widgets are parameters `submitted`, `name` and `field`.
The chat box is a parameter `input`, where the empty string stands for "nothing
typed". This matches the script's truthiness test.

Only the page display skips system messages. The formatter formats every message,
so the system prompt is sent to the completion service under the assistant label
(`Label`, `PromptCarriesSystemPrompt`).

## Model

| member | source | states |
|---|---|---|
| `Transcript.Label` | app.py:114 | The label is the user label exactly when the role is user. Every other role, system included, gets the assistant label. |
| `Transcript.Line` | app.py:114 | A message's line is its label, then `": "`, then its content, in that order. |
| `Transcript.Displayed` | app.py:94-99 | The shown messages are exactly the non-system messages of the history, and there are no more of them than messages. |
| `Transcript.FormatEmpty` | app.py:111-116 | The transcript is empty exactly when the history is empty. |
| `Transcript.FormatConcat` | app.py:111-116 | Two non-empty histories in sequence format to their two transcripts joined by a newline, so the input order is kept. |
| `Transcript.FormatAppend` | app.py:113-116 | Appending a message to a non-empty history appends a newline and that message's line to the transcript. |
| `Transcript.FormatStartsWith` | app.py:113-116 | A transcript starts with the line of the first message, and with the transcript of any non-empty prefix of the history. |
| `Transcript.FormatSplitsIntoLines` | app.py:111-116 | When no content holds a newline, splitting the transcript at newlines gives back one line per message, in order. Real session transcripts never meet this condition, because the system prompt and the greeting span several lines. |
| `Transcript.NewlineForgesTurn` | app.py:113-116 | Contents are not escaped: a user message holding a newline and the assistant label formats exactly like a user line followed by a separate assistant turn. |
| `Transcript.TwoMessageTranscript` | app.py:111-116 | A user "Hi" and an assistant "Hello" format to exactly two lines, in that order. |
| `Transcript.DisplayedConcat` | app.py:96-97 | Filtering distributes over concatenation, so the shown messages keep their original order. |
| `Transcript.DisplayedNoSystem` | app.py:96-97 | A history without system messages is shown unchanged. |
| `Session.GreetingMentions` | app.py:85-91 | The personalised greeting contains the researcher's name and field. |
| `Session.InitUserInfoIdempotent` | app.py:51-58 | The empty profile is created only when none exists. The history is untouched, a second call changes nothing, and the invariant is kept. |
| `Session.SubmitTakesEffect` | app.py:62-75 | The form changes the state exactly when the profile is not initialised and a submission brings two non-empty fields. It then stores both fields and marks the profile initialised. |
| `Session.InitializedProfileIsFinal` | app.py:51-75 | Once the profile is initialised, neither the form nor the profile initialiser changes it again. |
| `Session.SubmitKeepsValid` | app.py:69-72 | The form keeps the profile either untouched or filled with two non-empty values. |
| `Session.InitChatHistoryContents` | app.py:78-92 | The history initialiser acts only when no history exists, and calling it again changes nothing. When it acts, the first message is the system prompt. A second message, from the assistant and mentioning name and field, follows exactly when the profile is initialised. |
| `Session.InitChatHistoryKeepsValid` | app.py:78-92 | A new history starts with the system prompt and holds no other system message. |
| `Session.TurnAppendsOnly` | app.py:138-157 | A turn never changes or removes earlier messages. Empty input changes nothing. Otherwise the user message comes next, followed by exactly one assistant reply on success (growth 2) and by nothing on failure (growth 1). |
| `Session.TurnKeepsValid` | app.py:138-157 | A turn keeps the invariant: the system prompt stays first and is the only system message. |
| `Session.PromptCarriesSystemPrompt` | app.py:111-149 | In a valid history, the transcript sent starts with the system prompt under the assistant label and ends with a newline and the user's new line. |
| `Session.PromptExtends` | app.py:140-152 | The transcript of a later turn starts with the transcript sent in the earlier turn, unchanged. |
| `Session.DisplayedSkipsSystemPrompt` | app.py:94-99 | In a valid history, the page shows every message after the system prompt. |
| `Session.ScriptKeepsValid` | app.py:119-157 | A whole run of the page script keeps the profile and history invariant `Valid`. |
| `Session.ScriptKeepsSessionInvariant` | app.py:119-157 | A whole run of the page script keeps the stronger invariant. Beyond `Valid`, a history exists only for an initialised profile, because the history is created only after the form was accepted. Its second message is then the greeting with that profile's name and field. |
| `Session.FirstConversation` | app.py:119-157 | In a new session, a run that accepts the form stores the profile and creates no history. The next run, with a successful turn, gives four messages in this order: system prompt, greeting naming the researcher and field, user message, reply. |
| `Session.SessionState.constructor` | app.py:53 | A new session holds neither a profile nor a history. |
| `Session.SessionState.InitUserInfo` | app.py:51-58 | Updates the fields in place exactly as `StepInitUserInfo` says and keeps the invariant. |
| `Session.SessionState.GetUserInfo` | app.py:60-75 | Answers whether the profile was already initialised. It updates the profile exactly as `StepSubmit` says. |
| `Session.SessionState.InitChatHistory` | app.py:78-92 | Creates the history in place exactly as `StepInitChatHistory` says. |
| `Session.SessionState.DisplayChatHistory` | app.py:94-99 | Its loop collects exactly the messages that `Displayed` keeps, in order. |
| `Session.SessionState.Turn` | app.py:138-157 | Appends in place exactly as `StepTurn` says. It answers the transcript sent, which is the old history plus the user message, formatted; for empty input it answers nothing. |
| `Session.SessionState.RunScript` | app.py:119-157 | One run of `main` follows `StepScript`. The history is shown exactly when the profile is ready and setup succeeded, and then it is every message after the system prompt. A transcript is sent exactly when the history was shown and the input is non-empty. What is sent is the history, with the new user message appended, formatted. The run keeps the session invariant. |

## Left out

- Page layout, titles, markdown, the form and chat widgets, and chat bubbles (app.py:31-48 and the `st.*` rendering calls). Only the filter of `display_chat_history` is modelled, as `Displayed` and `SessionState.DisplayChatHistory`.
- Building the completion client and calling it (app.py:102-109, 149). This is a network call into a library that is not part of this model, plus a secrets lookup. They become the parameters `setupOk` and `outcome`.
- `st.rerun()` and `st.stop()` (app.py:73, 109). These are framework control flow. A rerun is the script ending after an accepted form, with the next run as a new `RunScript` call. A setup failure ends the run before the history is shown.
- The error text built with `str(e)` (app.py:157). It is display only and changes no state.
- `INITIAL_GREETING` (app.py:13-14). The script never uses it.
- Roles are the three values the script stores (`system`, `user`, `assistant`), not arbitrary strings.
- Concurrent runs of one session are not modelled. The framework runs one script run per session at a time.
