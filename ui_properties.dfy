/**
 * What the handlers of `AIChat` guarantee, stated over the record model:
 * the early returns, the order of the chat bubbles, the life of the
 * attachment across requests, the cleanup of the generation block, and
 * the effect of the file, model and nickname events.
 */
module UiProperties {
  import opened Wrappers
  import opened PyStr
  import opened AiConnect
  import opened Ui

  /** The submission gets past both early returns. */
  predicate Submits(a: App) {
    Strip(a.prompt) != [] && a.modelName.Some?
  }

  /** A prompt that is empty after stripping changes nothing at all: no
      bubble, no backend call, no log record, no animation. */
  lemma EmptyPromptIsNoOp(a: App, outcome: Outcome)
    requires AllSpace(a.prompt)
    ensures AfterSendPrompt(a, outcome) == a
  {
    StripEmptyIff(a.prompt);
  }

  /** Without a selected model the handler logs one error record and
      leaves everything else (chat, prompt, attachment, sparkline, backend
      calls) as it was. */
  lemma NoModelOnlyLogs(a: App, outcome: Outcome)
    requires !AllSpace(a.prompt) && a.modelName.None?
    ensures AfterSendPrompt(a, outcome) == a.(log := a.log + [LogRecord(Error, NoModelMessage)])
  {
    StripEmptyIff(a.prompt);
  }

  /** A submission that passes validation makes exactly one backend call,
      for the selected model, carrying the stripped prompt and exactly the
      pending image path (none when nothing is attached). */
  lemma SubmissionCallsBackendOnce(a: App, outcome: Outcome)
    requires Submits(a)
    ensures var r := AfterSendPrompt(a, outcome);
      |r.requests| == |a.requests| + 1 && r.requests[..|a.requests|] == a.requests
      && r.requests[|a.requests|].model == a.modelName.value
      && UserPrompt(r.requests[|a.requests|]) == Some(Strip(a.prompt))
      && ImageOf(r.requests[|a.requests|]) == a.imgFilePth
  {
    var req := SendMessage(a.modelName.value, Strip(a.prompt), ImageArgFor(a.imgFilePth));
    SendMessageReadsBack(a.modelName.value, Strip(a.prompt), ImageArgFor(a.imgFilePth));
    assert AfterSendPrompt(a, outcome).requests == a.requests + [req];
  }

  /** On a reply the chat grows by two bubbles, the user's stripped prompt
      then the model's answer, the text area is empty, the attachment is
      consumed and the response is logged at INFO. */
  lemma ReplyAppendsTwoInOrder(a: App, content: string)
    requires Consistent(a) && Submits(a)
    ensures var r := AfterSendPrompt(a, Reply(content));
      r.chat == a.chat + [ChatEntry(a.username, Strip(a.prompt)), ChatEntry(a.modelName.value, content)]
      && r.prompt == []
      && r.imgFilePth == None && !r.preview
      && r.log == a.log + [LogRecord(Info, ResponseLog(content))]
      && r.modelName == a.modelName && r.username == a.username
  {
  }

  /** When the backend call raises, only the user's bubble is added, the
      text area is still cleared, one CRITICAL record carries the exception,
      and the pending image stays attached with its preview. */
  lemma FailureKeepsAttachment(a: App, message: string)
    requires Submits(a)
    ensures var r := AfterSendPrompt(a, Raised(message));
      r.chat == a.chat + [ChatEntry(a.username, Strip(a.prompt))]
      && r.prompt == []
      && r.imgFilePth == a.imgFilePth && r.preview == a.preview
      && r.log == a.log + [LogRecord(Critical, message)]
      && r.modelName == a.modelName && r.username == a.username
  {
  }

  /** Every exit from the generation block, reply or exception, leaves the
      animation task cancelled and the sparkline empty. */
  lemma GenerationAlwaysStopsAnimation(a: App, outcome: Outcome)
    requires Submits(a)
    ensures AfterSendPrompt(a, outcome).animation == Cancelled
    ensures AfterSendPrompt(a, outcome).sparkline == []
  {
  }

  /** The events that reach the app other than a file choice: the user
      editing the text area, a submission settling as `outcome`, a radio
      set change and an input submission. */
  datatype Event =
    | Edit(text: string)
    | Submit(outcome: Outcome)
    | RadioChanged(radioSetId: string, pressed: Option<string>)
    | InputSubmitted(inputId: string, value: string)

  function Step(a: App, e: Event): App {
    match e
    case Edit(text) => a.(prompt := text)
    case Submit(outcome) => AfterSendPrompt(a, outcome)
    case RadioChanged(radioSetId, pressed) => AfterSetAvatar(a, radioSetId, pressed)
    case InputSubmitted(inputId, value) => AfterNicknameChange(a, inputId, value)
  }

  /** The app after the events `es`, in order. */
  function Run(a: App, es: seq<Event>): App
    decreases |es|
  {
    if es == [] then a else Run(Step(a, es[0]), es[1..])
  }

  /** With no image pending and no file chosen, no event attaches one, and
      every backend call made on the way carries no image; earlier calls
      are kept as they were. */
  lemma {:induction false} NoImageWithoutChooseFile(a: App, es: seq<Event>)
    requires a.imgFilePth.None?
    ensures Run(a, es).imgFilePth == None
    ensures |a.requests| <= |Run(a, es).requests|
    ensures Run(a, es).requests[..|a.requests|] == a.requests
    ensures forall n :: |a.requests| <= n < |Run(a, es).requests| ==> ImageOf(Run(a, es).requests[n]) == None
    decreases |es|
  {
    if es != [] {
      var b := Step(a, es[0]);
      if es[0].Submit? && Submits(a) {
        SubmissionCallsBackendOnce(a, es[0].outcome);
      }
      assert b.imgFilePth == None;
      assert |a.requests| <= |b.requests| && b.requests[..|a.requests|] == a.requests;
      assert forall n :: |a.requests| <= n < |b.requests| ==> ImageOf(b.requests[n]) == None;
      NoImageWithoutChooseFile(b, es[1..]);
      var r := Run(b, es[1..]);
      assert r == Run(a, es);
      assert r.requests[..|a.requests|] == r.requests[..|b.requests|][..|a.requests|];
      forall n | |a.requests| <= n < |r.requests| ensures ImageOf(r.requests[n]) == None {
        if n < |b.requests| {
          assert r.requests[n] == r.requests[..|b.requests|][n] == b.requests[n];
        }
      }
    }
  }

  /** An image sent with a successful request is used once: it goes out
      with that request, and with no later one, whatever text edits,
      submissions, model changes and nickname changes follow, as long as no
      new file is chosen. */
  lemma AttachmentSingleUse(a: App, content: string, es: seq<Event>)
    requires Submits(a) && a.imgFilePth.Some?
    ensures var b := AfterSendPrompt(a, Reply(content));
      var c := Run(b, es);
      ImageOf(b.requests[|a.requests|]) == a.imgFilePth
      && |b.requests| <= |c.requests|
      && forall n :: |b.requests| <= n < |c.requests| ==> ImageOf(c.requests[n]) == None
  {
    var b := AfterSendPrompt(a, Reply(content));
    SubmissionCallsBackendOnce(a, Reply(content));
    NoImageWithoutChooseFile(b, es);
  }

  /** An image whose request failed is still attached, so the next
      submission sends the same image again. */
  lemma FailedAttachmentIsResent(a: App, message: string, text: string, outcome: Outcome)
    requires Submits(a) && a.imgFilePth.Some?
    requires !AllSpace(text)
    ensures var b := AfterSendPrompt(a, Raised(message));
      var c := AfterSendPrompt(b.(prompt := text), outcome);
      |c.requests| == |a.requests| + 2
      && ImageOf(c.requests[|a.requests|]) == a.imgFilePth
      && ImageOf(c.requests[|a.requests| + 1]) == a.imgFilePth
  {
    var b := AfterSendPrompt(a, Raised(message));
    SubmissionCallsBackendOnce(a, Raised(message));
    StripEmptyIff(text);
    SubmissionCallsBackendOnce(b.(prompt := text), outcome);
  }

  /** Choosing a file attaches it exactly when it is an image; a rejected
      file leaves the attachment as it was and logs a warning; cancelling
      the picker changes nothing. */
  lemma ChooseFileAttachesOnlyImages(a: App, chosen: Option<string>, isImage: string -> bool)
    ensures var r := AfterChooseFile(a, chosen, isImage);
      (chosen.Some? && isImage(chosen.value) ==>
         r == a.(log := a.log + [LogRecord(Info, OpenImageLog(chosen.value))],
                 preview := true, imgFilePth := chosen))
      && (chosen.Some? && !isImage(chosen.value) ==>
         r == a.(log := a.log + [LogRecord(Warning, NotImageLog(chosen.value))]))
      && (chosen.None? ==> r == a)
      && r.chat == a.chat && r.requests == a.requests && r.modelName == a.modelName
  {
  }

  /** A change of the "modelset" radio set selects the pressed label, or
      "Unknown" when nothing is pressed; other radio sets change nothing. */
  lemma SetAvatarSelectsModel(a: App, radioSetId: string, pressed: Option<string>)
    ensures var r := AfterSetAvatar(a, radioSetId, pressed);
      (radioSetId == "modelset" ==>
         r.modelName == Some(if pressed.Some? then pressed.value else "Unknown")
         && r.log == a.log + [LogRecord(Info, SelectedModelLog(r.modelName.value))]
         && r.(modelName := a.modelName, log := a.log) == a)
      && (radioSetId != "modelset" ==> r == a)
  {
  }

  /** Once a model is selected, a non-blank prompt always gets past validation. */
  lemma SelectedModelEnablesSubmission(a: App, pressed: Option<string>)
    requires !AllSpace(a.prompt)
    ensures Submits(AfterSetAvatar(a, "modelset", pressed))
  {
    StripEmptyIff(a.prompt);
  }

  /** Submitting the "nickname" input sets the username the next user
      bubble is posted under. */
  lemma NicknameSetsSender(a: App, value: string, outcome: Outcome)
    requires Submits(a)
    ensures var b := AfterNicknameChange(a, "nickname", value);
      b.username == value
      && AfterSendPrompt(b, outcome).chat[|a.chat|] == ChatEntry(value, Strip(a.prompt))
  {
  }

  /** Other inputs leave the app untouched. */
  lemma OtherInputsIgnored(a: App, inputId: string, value: string)
    requires inputId != "nickname"
    ensures AfterNicknameChange(a, inputId, value) == a
  {
  }

  /** Every handler keeps the preview widget mounted exactly while an image
      is pending. */
  lemma HandlersKeepConsistent(a: App, outcome: Outcome, chosen: Option<string>, isImage: string -> bool,
                               radioSetId: string, pressed: Option<string>, inputId: string, value: string)
    requires Consistent(a)
    ensures Consistent(AfterSendPrompt(a, outcome))
    ensures Consistent(AfterChooseFile(a, chosen, isImage))
    ensures Consistent(AfterSetAvatar(a, radioSetId, pressed))
    ensures Consistent(AfterNicknameChange(a, inputId, value))
  {
  }

  /** At start-up, once `on_ready` has logged its greeting, no model is
      selected, so any submission is refused with one error record and no
      backend call. */
  lemma StartupRefusesSubmission(text: string, outcome: Outcome)
    requires !AllSpace(text)
    ensures AfterSendPrompt(AfterReady(Initial()).(prompt := text), outcome).requests == []
    ensures AfterSendPrompt(AfterReady(Initial()).(prompt := text), outcome).log
            == [LogRecord(Info, "Hello World!"), LogRecord(Error, NoModelMessage)]
  {
    StripEmptyIff(text);
  }
}
