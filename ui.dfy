/**
 * The prompt-submission state machine of the `AIChat` app: the prompt
 * handler with its generation block, the choose-file button, the model
 * radio set and the nickname input. Widgets are reduced to the values the
 * handlers read and write; the backend call, the file picker's answer,
 * the image check and the animation's sine samples are parameters.
 */
module Ui {
  import opened Wrappers
  import opened PyStr
  import opened AiConnect

  /** One bubble of the chat window: who wrote it and what it says. */
  datatype ChatEntry = ChatEntry(sender: string, content: string)

  /** The logging levels the handlers use; `logger.fatal` is CRITICAL. */
  datatype Level = Info | Warning | Error | Critical

  datatype LogRecord = LogRecord(level: Level, text: string)

  /** The `animation_task` attribute: never created, running, or cancelled and awaited. */
  datatype TaskState = NoTask | Running | Cancelled

  /** How the awaited backend call settles: the response's message content,
      or an exception with its message. */
  datatype Outcome = Reply(content: string) | Raised(message: string)

  const DefaultUsername := "TheDocingEast"
  const ModelSetId := "modelset"
  const NicknameId := "nickname"
  const UnknownModel := "Unknown"
  const NoModelMessage := "No model has been selected, please select model!"
  const ReadyMessage := "Hello World!"
  /** Number of samples in one sparkline window. */
  const WindowSize := 20

  function ResponseLog(content: string): string { "Get response from ollama: " + content }
  function OpenImageLog(path: string): string { "Open image in " + path }
  function NotImageLog(path: string): string { "File " + path + " not image" }
  function SelectedModelLog(name: string): string { "Selected model: " + name }
  function UsernameLog(name: string): string { "Username successfully changed to " + name }

  /** The app as a record: every value the handlers read or write.
      `preview` says whether the attached image's preview widget is mounted;
      `requests` is the sequence of calls made to the backend. */
  datatype App = App(
    modelName: Option<string>,
    username: string,
    imgFilePth: Option<string>,
    preview: bool,
    chat: seq<ChatEntry>,
    prompt: string,
    sparkline: seq<int>,
    animation: TaskState,
    log: seq<LogRecord>,
    requests: seq<ChatRequest>)

  /** The app right after start-up. */
  function Initial(): App {
    App(None, DefaultUsername, None, false, [], [], [], NoTask, [], [])
  }

  /** `on_ready`: the app logs a greeting at INFO once it is ready, before
      any event handler runs. */
  function AfterReady(a: App): App {
    a.(log := a.log + [LogRecord(Info, ReadyMessage)])
  }

  /** The preview widget is mounted exactly while an image is pending. */
  predicate Consistent(a: App) {
    a.preview <==> a.imgFilePth.Some?
  }

  /** The `img` argument the prompt handler passes for a pending path. */
  function ImageArgFor(pending: Option<string>): ImageArg {
    if pending.Some? then PathImage(pending.value) else NoImage
  }

  function Max(x: int, y: int): int { if x < y then y else x }

  /** The sparkline window published on tick `tick` of the animation.
      `wave(k)` stands for the truncated sample `int(sin(k / 4) * 5 + 6)`:
      entry i on tick t is taken at (i + t / 2) / 2 = (2i + t) / 4. */
  function Frame(wave: int -> int, tick: nat): (w: seq<int>)
    ensures |w| == WindowSize
    ensures forall k :: 0 <= k < |w| ==> w[k] >= 1
  {
    seq(WindowSize, k => Max(1, wave(2 * k + tick)))
  }

  /** The finally clause of `GenerateAnswer`: cancel and await the task if
      there is one, then empty the sparkline. */
  function StopAnimation(a: App): App {
    a.(animation := if a.animation == NoTask then NoTask else Cancelled, sparkline := [])
  }

  /** `send_prompt_handler` with the backend call settling as `outcome`. */
  function AfterSendPrompt(a: App, outcome: Outcome): App {
    var promptText := Strip(a.prompt);
    if promptText == [] then a
    else if a.modelName.None? then a.(log := a.log + [LogRecord(Error, NoModelMessage)])
    else
      var model := a.modelName.value;
      // entering GenerateAnswer starts the animation; the body posts the
      // user's message, clears the text area and calls the backend
      var sent := a.(
        animation := Running,
        chat := a.chat + [ChatEntry(a.username, promptText)],
        prompt := [],
        requests := a.requests + [SendMessage(model, promptText, ImageArgFor(a.imgFilePth))]);
      match outcome
      case Reply(content) =>
        var cleared := if a.imgFilePth.Some? then sent.(preview := false, imgFilePth := None) else sent;
        StopAnimation(cleared.(
          log := cleared.log + [LogRecord(Info, ResponseLog(content))],
          chat := cleared.chat + [ChatEntry(model, content)]))
      case Raised(message) =>
        var stopped := StopAnimation(sent);
        stopped.(log := stopped.log + [LogRecord(Critical, message)])
  }

  /** The choose-file branch of `button_action`: `chosen` is what the file
      picker returned and `isImage` stands for `is_image`. */
  function AfterChooseFile(a: App, chosen: Option<string>, isImage: string -> bool): App {
    if chosen.None? then a
    else if isImage(chosen.value) then
      a.(log := a.log + [LogRecord(Info, OpenImageLog(chosen.value))],
         preview := true,
         imgFilePth := chosen)
    else a.(log := a.log + [LogRecord(Warning, NotImageLog(chosen.value))])
  }

  /** `set_avatar`: a change of the radio set `radioSetId`, whose pressed
      button has label `pressed` (or none is pressed). */
  function AfterSetAvatar(a: App, radioSetId: string, pressed: Option<string>): App {
    if radioSetId == ModelSetId then
      var name := if pressed.Some? then pressed.value else UnknownModel;
      a.(modelName := Some(name), log := a.log + [LogRecord(Info, SelectedModelLog(name))])
    else a
  }

  /** `handle_nickname_change`: input `inputId` submitted with `value`. */
  function AfterNicknameChange(a: App, inputId: string, value: string): App {
    if inputId == NicknameId then
      a.(username := value, log := a.log + [LogRecord(Info, UsernameLog(value))])
    else a
  }

  /** The chat window: a scrolling column that message bubbles are mounted into. */
  class Chat {
    var messages: seq<ChatEntry>

    constructor ()
      ensures messages == []
    {
      messages := [];
    }

    /** `add_message(msg_content, member_name)` mounts one bubble at the end. */
    method AddMessage(msgContent: string, memberName: string)
      modifies this
      ensures messages == old(messages) + [ChatEntry(memberName, msgContent)]
    {
      messages := messages + [ChatEntry(memberName, msgContent)];
    }
  }

  class AIChat {
    const chat: Chat
    var modelName: Option<string>
    var username: string
    var imgFilePth: Option<string>
    var preview: bool
    var prompt: string
    var sparkline: seq<int>
    var animation: TaskState
    var log: seq<LogRecord>
    var requests: seq<ChatRequest>

    ghost function State(): App
      reads this, chat
    {
      App(modelName, username, imgFilePth, preview, chat.messages, prompt,
          sparkline, animation, log, requests)
    }

    ghost predicate Valid()
      reads this, chat
    {
      Consistent(State())
    }

    constructor ()
      ensures fresh(chat)
      ensures Valid() && State() == Initial()
    {
      chat := new Chat();
      modelName := None;
      username := DefaultUsername;
      imgFilePth := None;
      preview := false;
      prompt := [];
      sparkline := [];
      animation := NoTask;
      log := [];
      requests := [];
    }

    /** `on_ready`. */
    method OnReady()
      requires Valid()
      modifies this
      ensures Valid()
      ensures State() == AfterReady(old(State()))
    {
      log := log + [LogRecord(Info, ReadyMessage)];
    }

    /** One pass of the `for` loop in `animate_sparkline`: refills the
        buffer in place with the samples of tick `tick`. */
    static method FillWindow(data: array<int>, wave: int -> int, tick: nat)
      requires data.Length == WindowSize
      modifies data
      ensures data[..] == Frame(wave, tick)
    {
      var i := 0;
      while i < data.Length
        invariant 0 <= i <= data.Length
        invariant forall k :: 0 <= k < i ==> data[k] == Max(1, wave(2 * k + tick))
      {
        data[i] := Max(1, wave(2 * i + tick));
        i := i + 1;
      }
      assert forall k :: 0 <= k < WindowSize ==> data[..][k] == Frame(wave, tick)[k];
    }

    /** `animate_sparkline`, run for `ticks` ticks before it is cancelled:
        each tick refills the 20-entry buffer and publishes a copy of it. */
    method AnimateSparkline(wave: int -> int, ticks: nat)
      modifies this`sparkline
      ensures ticks == 0 ==> sparkline == old(sparkline)
      ensures ticks > 0 ==> sparkline == Frame(wave, ticks - 1)
    {
      var data := new int[WindowSize];
      var tick := 0;
      while tick < ticks
        invariant 0 <= tick <= ticks
        invariant tick == 0 ==> sparkline == old(sparkline)
        invariant tick > 0 ==> sparkline == Frame(wave, tick - 1)
      {
        FillWindow(data, wave, tick);
        sparkline := data[..];
        tick := tick + 1;
      }
    }

    /** The cleanup in the finally clause of `GenerateAnswer`. */
    method FinishGeneration()
      modifies this`animation, this`sparkline
      ensures animation == (if old(animation) == NoTask then NoTask else Cancelled)
      ensures sparkline == []
    {
      if animation != NoTask {
        animation := Cancelled;
      }
      sparkline := [];
    }

    /** `send_prompt_handler`. The backend call settles as `outcome`, and the
        animation gets `ticks` ticks of `wave` while the call is awaited. */
    method SendPromptHandler(outcome: Outcome, wave: int -> int, ticks: nat)
      requires Valid()
      modifies this, chat
      ensures Valid()
      ensures State() == AfterSendPrompt(old(State()), outcome)
    {
      ghost var before := State();
      var promptText := Strip(prompt);
      if promptText == [] {
        return;
      }
      if modelName.None? {
        log := log + [LogRecord(Error, NoModelMessage)];
        return;
      }
      // the generation block starts the animation task
      animation := Running;
      chat.AddMessage(promptText, username);
      prompt := [];
      if imgFilePth.Some? {
        requests := requests + [SendMessage(modelName.value, promptText, PathImage(imgFilePth.value))];
        AnimateSparkline(wave, ticks);
        if outcome.Reply? {
          preview := false;
          imgFilePth := None;
        }
      } else {
        requests := requests + [SendMessage(modelName.value, promptText, NoImage)];
        AnimateSparkline(wave, ticks);
      }
      ghost var sent := before.(
        animation := Running,
        chat := before.chat + [ChatEntry(before.username, promptText)],
        prompt := [],
        requests := before.requests + [SendMessage(before.modelName.value, promptText, ImageArgFor(before.imgFilePth))]);
      assert State().(sparkline := sent.sparkline) ==
        if outcome.Reply? && before.imgFilePth.Some? then sent.(preview := false, imgFilePth := None) else sent;
      if outcome.Reply? {
        log := log + [LogRecord(Info, ResponseLog(outcome.content))];
        chat.AddMessage(outcome.content, modelName.value);
      }
      FinishGeneration();
      // the exception handler logs the exception's message at CRITICAL
      if outcome.Raised? {
        log := log + [LogRecord(Critical, outcome.message)];
      }
    }

    /** The choose-file branch of `button_action`. */
    method ChooseFile(chosen: Option<string>, isImage: string -> bool)
      requires Valid()
      modifies this
      ensures Valid()
      ensures State() == AfterChooseFile(old(State()), chosen, isImage)
    {
      if chosen.Some? {
        if isImage(chosen.value) {
          log := log + [LogRecord(Info, OpenImageLog(chosen.value))];
          preview := true;
          imgFilePth := Some(chosen.value);
        } else {
          log := log + [LogRecord(Warning, NotImageLog(chosen.value))];
        }
      }
    }

    /** `set_avatar`. */
    method SetAvatar(radioSetId: string, pressed: Option<string>)
      requires Valid()
      modifies this
      ensures Valid()
      ensures State() == AfterSetAvatar(old(State()), radioSetId, pressed)
    {
      if radioSetId == ModelSetId {
        modelName := Some(if pressed.Some? then pressed.value else UnknownModel);
        log := log + [LogRecord(Info, SelectedModelLog(modelName.value))];
      }
    }

    /** `handle_nickname_change`. */
    method HandleNicknameChange(inputId: string, value: string)
      requires Valid()
      modifies this
      ensures Valid()
      ensures State() == AfterNicknameChange(old(State()), inputId, value)
    {
      if inputId == NicknameId {
        username := value;
        log := log + [LogRecord(Info, UsernameLog(value))];
      }
    }
  }
}
