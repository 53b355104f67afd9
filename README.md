# Ollama TUI: the prompt-submission state machine

A Dafny model of the core of a terminal chat client for ollama models. It covers two parts.

- The `AIChat` app's handlers. The prompt handler strips the text area and refuses a blank prompt or a missing model. It then opens the generation block, posts the user's bubble, clears the text area, calls the backend (with the attached image, if there is one) and posts the model's reply. The finally clause of the generation block stops the sparkline animation. The other handlers are the choose-file button, the model radio set and the nickname input.
- The request that `OllamaClient.send_message` builds. It holds one user message, carries an `images` list only when it is given a string path, names the chosen model and keeps the model alive for `"10m"`.

Layout:

- `wrappers.dfy`: `Option`, which stands for Python's `None`.
- `pystr.dfy` (module `PyStr`): Python's `str.strip()` over the characters for which `str.isspace()` is true. Lemmas show it removes exactly the surrounding whitespace.
- `ai_connect.dfy` (module `AiConnect`): `SendMessage` builds the chat request as a map-shaped message. Two decoders, `UserPrompt` and `ImageOf`, read the prompt and the image back out of a request.
- `ui.dfy` (module `Ui`):
  - `App` is the record of everything the handlers read or write.
  - `AfterSendPrompt`, `AfterChooseFile`, `AfterSetAvatar` and `AfterNicknameChange` are the specification functions of the four handlers.
  - The classes `Chat` and `AIChat` hold the same state in fields. Their methods update that state step by step, as the source does.
  - Each handler method is proved to end in the state its specification function gives, and to keep the invariant `Valid()`: the image preview is mounted exactly while a path is pending.
- `ui_properties.dfy` (module `UiProperties`): the behaviour of the handlers, stated as lemmas over the specification functions.

The model depends on some things it cannot see. Each becomes a parameter:

- the backend call's result, `Outcome = Reply(content) | Raised(message)`;
- `is_image`, an arbitrary predicate `isImage`;
- what the file picker returns, `Option<string>`;
- how many animation ticks run while the call is awaited, plus the truncated sine sample for each point of the wave, `wave: int -> int`.

The calls made to the backend are kept as a sequence of `ChatRequest` values (`requests`). The logger is a sequence of `(level, text)` records.

Some of the code's behaviour is easy to misread. The model follows the code:

- No single-flight rule is enforced. Nothing stops a second submission while one is in flight.
- A failed call leaves the image attached, because the code clears it only after a successful call (src/ui.py:258-264). `FailedAttachmentIsResent` shows that the next submission sends the same image again.
- The user's bubble holds the stripped prompt, not the raw text (src/ui.py:244, 254).
- An exception is logged with `logger.fatal`, so the record's level is CRITICAL, not ERROR (src/ui.py:275). The missing-model message uses `logger.error`, so its level is ERROR (src/ui.py:250).
- The text area is cleared before the backend is called (src/ui.py:256). So it is empty after a failed call as well as after a successful one.
- `send_message` sends only the latest prompt and no earlier chat turns.

## Model

| member | source | states |
|---|---|---|
| PyStr.TrimStartSpec | src/ui.py:244 | stripping the front keeps a suffix of the text, removes only whitespace, and what is left does not start with whitespace |
| PyStr.TrimEndSpec | src/ui.py:244 | stripping the back keeps a prefix of the text, removes only whitespace, and what is left does not end with whitespace |
| PyStr.StripUnique | src/ui.py:244 | `strip()` returns the one infix that has only whitespace around it and neither starts nor ends with whitespace |
| PyStr.StripEmptyIff | src/ui.py:244-247 | the stripped prompt is empty exactly when the text area holds only whitespace |
| PyStr.StripIdempotent | src/ui.py:244 | stripping an already stripped prompt changes nothing |
| AiConnect.SendMessage | src/ai_connect.py:8-19 | the chat call names the given model and keep_alive "10m" and carries exactly one message; that message has role "user" and content msg_content; it has an `images` key, equal to `[img]`, exactly when img is a string, and otherwise only the role and content keys |
| AiConnect.SendMessageReadsBack | src/ai_connect.py:9-17 | reading a built request back gives the prompt, and the image path exactly when a string path was passed (None and non-string values attach nothing) |
| AiConnect.SendMessageInjective | src/ai_connect.py:9-18 | two calls build the same request only when they were given the same model, content and image path |
| Ui.Frame | src/ui.py:202-212 | every window the animation publishes has 20 samples, each at least 1 |
| Ui.AIChat.FillWindow | src/ui.py:207-210 | one pass of the inner loop fills the 20-entry buffer in place with the samples of the current tick |
| Ui.AIChat.AnimateSparkline | src/ui.py:199-214 | after n > 0 ticks the sparkline shows the window of tick n - 1; with no tick it is unchanged |
| Ui.AIChat.FinishGeneration | src/ui.py:225-234 | the finally clause cancels the animation task if there is one and empties the sparkline |
| Ui.Chat.constructor | src/ui.py:88-90 | a new chat window holds no bubbles |
| Ui.Chat.AddMessage | src/ui.py:97-104 | add_message puts one bubble (member_name, msg_content) after all the earlier ones |
| Ui.AIChat.constructor | src/ui.py:114-120 | at start-up no model is selected, the username is "TheDocingEast", nothing is attached, and chat, log and sparkline are empty; the invariant holds |
| Ui.AIChat.OnReady | src/ui.py:122-123 | once the app is ready, it logs "Hello World!" at INFO and changes nothing else; the invariant is kept |
| Ui.AIChat.SendPromptHandler | src/ui.py:240-275 | the handler's new state is AfterSendPrompt of the old state and the backend outcome, whatever the animation did meanwhile; the invariant is kept |
| Ui.AIChat.ChooseFile | src/ui.py:283-292 | the choose-file branch's new state is AfterChooseFile of the old state; the invariant is kept |
| Ui.AIChat.SetAvatar | src/ui.py:297-302 | set_avatar's new state is AfterSetAvatar of the old state; the invariant is kept |
| Ui.AIChat.HandleNicknameChange | src/ui.py:304-309 | handle_nickname_change's new state is AfterNicknameChange of the old state; the invariant is kept |
| UiProperties.EmptyPromptIsNoOp | src/ui.py:244-247 | a prompt that is only whitespace changes nothing: no bubble, no backend call, no log record, no animation |
| UiProperties.NoModelOnlyLogs | src/ui.py:249-251 | with no model selected, the handler adds exactly one ERROR record; chat, prompt, attachment, sparkline and backend calls are untouched |
| UiProperties.SubmissionCallsBackendOnce | src/ui.py:258-266 | a valid submission makes exactly one backend call, for the selected model, with the stripped prompt and exactly the pending image path (none if nothing is attached) |
| UiProperties.ReplyAppendsTwoInOrder | src/ui.py:253-272 | on a reply the chat gains (username, stripped prompt) and then (model, reply content); the text area is empty, the attachment and its preview are gone, and the response is logged at INFO |
| UiProperties.FailureKeepsAttachment | src/ui.py:253-275 | when the backend call raises, only the user's bubble is added, the text area is empty, one CRITICAL record holds the exception, and the pending image and its preview stay |
| UiProperties.GenerationAlwaysStopsAnimation | src/ui.py:216-234 | on both exits from the generation block the animation task is cancelled and the sparkline is empty |
| UiProperties.NoImageWithoutChooseFile | src/ui.py:258-266 | with no image pending, no sequence of text edits, submissions, model changes and nickname changes attaches one; every backend call made along the way carries no image, and earlier calls are kept |
| UiProperties.AttachmentSingleUse | src/ui.py:258-264 | an image sent with a successful request goes out with that request and with no later one, whatever edits, submissions, model and nickname changes follow, until a new file is chosen |
| UiProperties.FailedAttachmentIsResent | src/ui.py:258-264 | after a failed request the next submission sends the same image again |
| UiProperties.ChooseFileAttachesOnlyImages | src/ui.py:283-292 | a chosen file is attached (and logged at INFO) exactly when it is an image; a non-image adds only a WARNING; cancelling the picker changes nothing |
| UiProperties.SetAvatarSelectsModel | src/ui.py:297-302 | a change of "modelset" selects the pressed label, or "Unknown" if nothing is pressed, and logs it; other radio sets change nothing |
| UiProperties.SelectedModelEnablesSubmission | src/ui.py:249-251 | once "modelset" has fired, a prompt that is not blank always gets past the model check |
| UiProperties.NicknameSetsSender | src/ui.py:304-308 | submitting "nickname" sets the username that the next user bubble is posted under |
| UiProperties.OtherInputsIgnored | src/ui.py:304-307 | a submission from any other input changes nothing |
| UiProperties.HandlersKeepConsistent | src/ui.py:258-290 | every handler keeps the image preview mounted exactly while an image path is pending |
| UiProperties.StartupRefusesSubmission | src/ui.py:115-124 | from the start-up state, after the greeting `on_ready` logs, a prompt makes no backend call, and the log holds the greeting followed by exactly one ERROR record |

## Left out

- Widget composition, CSS, the theme, Header/Footer, tabs and the Settings pane (src/ui.py:41-54, 126-197) are UI declaration with no logic.
- `on_ready` also creates the ollama client (src/ui.py:124). That is the network wrapper and is not modelled. Its greeting log record is modelled, as `OnReady`.
- Logger configuration and the RichLog sink (src/ui.py:61-76) are output only. The log is kept as a sequence of (level, text) records.
- The `reset_log` branch of `button_action` (src/ui.py:294-295) clears the class-level `log_window`. The logger does not write to that widget, so nothing in the model changes.
- `is_image`'s PIL check, the file picker and the `ollama.list()` call that fills the radio set are foreign library calls and I/O. They become parameters.
- The sine wave in `animate_sparkline` uses floating point. Each truncated sample is an input (`wave`).
- asyncio tasks, cancellation, `@work` workers and the interleaving of event handlers are concurrency. The backend call is atomic. So the model does not capture an event that arrives while a request is awaited. For example, the reply is posted under `model_name` as it is read after the await, so a model change during the await would change the reply's sender. In the source, choosing a second image during an await that carries an image fails when its preview is mounted (src/ui.py:289), because the first preview is still mounted then.
- No single-flight property is claimed, because the code has none.
- The `AsyncClient` constructor, its host and the network transport (src/ai_connect.py:5-6, 18) are not modelled. The backend's response is the `Outcome` parameter, and `send_message` returns it unchanged.
- Exceptions that can only come from the widget library are not modelled: a failed `query_one`, a failed `avatar.remove()`, or a `DuplicateIds` error when a second preview is mounted. The preview widget is a single flag. So a second valid image replaces the first path.
- src/main.py is an earlier revision that only writes "name: value" lines to a log and probes avatar files on disk. `current_time` reads the wall clock.
- Ui.AIChat.SendPromptHandler: the INFO record after a reply holds "Get response from ollama: " followed by the reply content. The source logs the whole response object's text.
