/**
 * The request that `OllamaClient.send_message` hands to the ollama chat
 * endpoint: one user message, with an `images` list only when an image
 * path is given, the chosen model and a keep-alive of ten minutes.
 */
module AiConnect {
  import opened Wrappers

  /** A value stored under a key of a message dictionary. */
  datatype Value = Str(text: string) | StrList(items: seq<string>)

  /** One chat message, a Python dictionary from key to value. */
  type Message = map<string, Value>

  /** The `img` argument: left at its default `None`, a `str` path, or some
      other object that is not a string. */
  datatype ImageArg = NoImage | PathImage(path: string) | NonStringImage

  /** The arguments of the `chat` call. */
  datatype ChatRequest = ChatRequest(model: string, messages: seq<Message>, keepAlive: string)

  const UserRole := "user"
  const KeepAlive := "10m"

  /** The `chat` call that `send_message(model, msg_content, img)` makes;
      its response is what `send_message` returns. */
  function SendMessage(model: string, msgContent: string, img: ImageArg): (req: ChatRequest)
    ensures req.model == model && req.keepAlive == "10m"
    ensures |req.messages| == 1
    ensures "role" in req.messages[0] && req.messages[0]["role"] == Str("user")
    ensures "content" in req.messages[0] && req.messages[0]["content"] == Str(msgContent)
    ensures ("images" in req.messages[0]) <==> img.PathImage?
    ensures img.PathImage? ==> req.messages[0]["images"] == StrList([img.path])
    ensures req.messages[0].Keys == {"role", "content"} + (if img.PathImage? then {"images"} else {})
  {
    var message := map["role" := Str(UserRole), "content" := Str(msgContent)];
    var message := if img.PathImage? then message["images" := StrList([img.path])] else message;
    ChatRequest(model, [message], KeepAlive)
  }

  /** The prompt a request carries: the content of its single user message. */
  function UserPrompt(req: ChatRequest): Option<string> {
    if |req.messages| == 1 && "role" in req.messages[0] && req.messages[0]["role"] == Str(UserRole)
       && "content" in req.messages[0] && req.messages[0]["content"].Str?
    then Some(req.messages[0]["content"].text)
    else None
  }

  /** The image a request carries: the one path in its message's `images` list. */
  function ImageOf(req: ChatRequest): Option<string> {
    if |req.messages| == 1 && "images" in req.messages[0]
       && req.messages[0]["images"].StrList? && |req.messages[0]["images"].items| == 1
    then Some(req.messages[0]["images"].items[0])
    else None
  }

  /** The path `send_message` attaches, if any. */
  function PathOf(img: ImageArg): Option<string> {
    if img.PathImage? then Some(img.path) else None
  }

  /** Reading a built request back gives the prompt and exactly the image
      path that was passed; `None` and non-string arguments attach nothing. */
  lemma SendMessageReadsBack(model: string, msgContent: string, img: ImageArg)
    ensures UserPrompt(SendMessage(model, msgContent, img)) == Some(msgContent)
    ensures ImageOf(SendMessage(model, msgContent, img)) == PathOf(img)
  {
  }

  /** Two calls build the same request only when they were given the same
      model, the same content and the same image path. */
  lemma SendMessageInjective(m1: string, c1: string, i1: ImageArg, m2: string, c2: string, i2: ImageArg)
    requires SendMessage(m1, c1, i1) == SendMessage(m2, c2, i2)
    ensures m1 == m2 && c1 == c2 && PathOf(i1) == PathOf(i2)
  {
    SendMessageReadsBack(m1, c1, i1);
    SendMessageReadsBack(m2, c2, i2);
  }
}
