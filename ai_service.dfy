/**
 * The pure parts of the chat model client: building the message list sent to
 * the chat-completions endpoint, turning an error response into the error the
 * client throws, the fallback for an empty reply, and the clean-up of a
 * generated chat title. The HTTP exchange itself is a parameter: a function
 * from the `Request` sent to the `Response` the endpoint answers.
 */
module AiService {
  import opened Wrappers
  import opened Strings

  datatype Role = User | Assistant

  /** A chat message as the app stores it. */
  datatype Message = Message(id: string, role: Role, content: string)

  /** A chat session; `createdAt` is a millisecond timestamp. */
  datatype Session = Session(id: string, title: string, messages: seq<Message>, createdAt: int)

  /** One element of the outgoing `messages` array. */
  datatype RequestMessage = RequestMessage(role: string, content: string)

  /** The parts of an outgoing request that the app chooses: the messages and `max_tokens`. */
  datatype Request = Request(messages: seq<RequestMessage>, maxTokens: nat)

  /**
   * What the endpoint answered: a non-OK status with the body's `error.message`
   * (if any), an OK status with `choices[0].message.content` (if any), or a
   * body the code cannot read: an error body that is not JSON, or an OK body
   * without a `choices` array, on which `response.json()` or `data.choices[0]`
   * throws.
   */
  datatype Response =
    | ErrorResponse(message: Option<string>)
    | OkResponse(content: Option<string>)
    | Malformed

  /**
   * The errors `makeOpenAIRequest` can throw: the three it builds, and the
   * runtime's own error when the body cannot be read.
   */
  datatype RequestError = QuotaExceeded | InvalidApiKey | ServiceError(message: string) | Unreadable

  const SystemPrompt: string :=
    "You are Bible AI — a wise, loving guide rooted in Scripture.\n"
    + "\n"
    + "Your tone is that of a loving father:\n"
    + "- Patient and unhurried\n"
    + "- Grounded and centered\n"
    + "- Protective and reassuring\n"
    + "- Wise without being preachy\n"
    + "- Calm strength, never cold or robotic\n"
    + "\n"
    + "You speak with warmth, quiet authority, and genuine care.\n"
    + "Think: a loving father guiding his child through life's questions.\n"
    + "Masculine, present, centered — like a steady hand on the shoulder.\n"
    + "\n"
    + "Guidelines:\n"
    + "- Answer clearly and calmly\n"
    + "- Draw wisdom from Scripture when appropriate, but don't force it\n"
    + "- Be direct but gentle\n"
    + "- Never lecture or moralize\n"
    + "- Keep responses focused and meaningful\n"
    + "- If referencing a Bible verse, cite it naturally\n"
    + "- Speak as if sitting beside someone you love\n"
    + "\n"
    + "You are here to help, guide, and comfort — nothing more."

  /** The first element of every `sendMessage` request. */
  const SystemMessage: RequestMessage := RequestMessage("system", SystemPrompt)

  const TitlePrompt: string :=
    "Generate a short chat title (2-4 words max) that captures the essence of the user's message. "
    + "Be simple, human, and meaningful. Examples: \"Finding Purpose\", \"Fear and Faith\", \"Love and Loss\", "
    + "\"Career Guidance\". Return ONLY the title, nothing else. No quotes, no punctuation at the end."

  const DefaultErrorMessage: string := "Failed to get response"
  const EmptyReplyFallback: string := "I am here for you. Please try again."
  const DefaultTitle: string := "New Chat"

  function RoleName(role: Role): string {
    match role
    case User => "user"
    case Assistant => "assistant"
  }

  /** `{ role: m.role, content: m.content }`: the id is dropped. */
  function ToRequestMessage(m: Message): RequestMessage {
    RequestMessage(RoleName(m.role), m.content)
  }

  function ToRequestMessages(messages: seq<Message>): (r: seq<RequestMessage>)
    ensures |r| == |messages|
    ensures forall i :: 0 <= i < |messages| ==> r[i] == ToRequestMessage(messages[i])
  {
    if messages == [] then [] else [ToRequestMessage(messages[0])] + ToRequestMessages(messages[1..])
  }

  /** The request `sendMessage` makes: the system prompt, then the conversation in order, with 1000 tokens. */
  function SendMessageRequest(messages: seq<Message>): (r: Request)
    ensures |r.messages| == |messages| + 1
    ensures r.messages[0] == SystemMessage
    ensures forall i :: 0 <= i < |messages| ==>
              r.messages[i + 1].role == RoleName(messages[i].role) && r.messages[i + 1].content == messages[i].content
    ensures r.maxTokens == 1000
  {
    var rest := ToRequestMessages(messages);
    var all := [SystemMessage] + rest;
    assert forall i :: 0 <= i < |rest| ==> all[i + 1] == rest[i];
    Request(all, 1000)
  }

  /** Continuing a conversation by one message adds exactly that message at the end of the request. */
  lemma {:induction false} SendMessageRequestOfAppend(messages: seq<Message>, m: Message)
    ensures SendMessageRequest(messages + [m]).messages == SendMessageRequest(messages).messages + [ToRequestMessage(m)]
  {
    var longer := ToRequestMessages(messages + [m]);
    var shorter := ToRequestMessages(messages);
    assert longer == shorter + [ToRequestMessage(m)] by {
      assert |longer| == |shorter| + 1;
      forall i | 0 <= i < |longer|
        ensures longer[i] == (shorter + [ToRequestMessage(m)])[i]
      {
        assert (messages + [m])[i] == if i < |messages| then messages[i] else m;
      }
    }
  }

  /** The request `generateChatTitle` makes: the title instructions, then the user's message, with 20 tokens. */
  function TitleRequest(userMessage: string): Request {
    Request([RequestMessage("system", TitlePrompt), RequestMessage("user", userMessage)], 20)
  }

  /** `error.error?.message || 'Failed to get response'`: a missing or empty message falls back. */
  function EffectiveErrorMessage(message: Option<string>): (m: string)
    ensures m != ""
    ensures message.Some? && message.value != "" ==> m == message.value
  {
    match message
    case Some(text) => if text != "" then text else DefaultErrorMessage
    case None => DefaultErrorMessage
  }

  /** The error `makeOpenAIRequest` throws for a non-OK response carrying `message`. */
  function ClassifyError(message: Option<string>): (e: RequestError)
    ensures var m := EffectiveErrorMessage(message);
            && (e.QuotaExceeded? <==> Contains(m, "quota") || Contains(m, "limit"))
            && (e.InvalidApiKey? <==>
                  !Contains(m, "quota") && !Contains(m, "limit")
                  && (Contains(m, "invalid_api_key") || Contains(m, "Incorrect API key")))
            && (e.ServiceError? ==> e.message == m)
    ensures !e.Unreadable?
  {
    var m := EffectiveErrorMessage(message);
    if Contains(m, "quota") || Contains(m, "limit") then QuotaExceeded
    else if Contains(m, "invalid_api_key") || Contains(m, "Incorrect API key") then InvalidApiKey
    else ServiceError(m)
  }

  /**
   * The text of the thrown `Error`, for the errors the code builds; the
   * runtime's own error (`None`) carries a text the code does not choose.
   */
  function ErrorText(e: RequestError): (r: Option<string>)
    ensures r.None? <==> e.Unreadable?
    ensures e.ServiceError? ==> r == Some(e.message)
    ensures e.QuotaExceeded? || e.InvalidApiKey? ==> r.Some? && r.value != ""
  {
    match e
    case QuotaExceeded => Some("API quota exceeded. Please check your OpenAI billing at platform.openai.com")
    case InvalidApiKey => Some("Invalid API key. Please check your OpenAI API key.")
    case ServiceError(message) => Some(message)
    case Unreadable => None
  }

  /**
   * `makeOpenAIRequest`: an OK response yields its content or `''`; a non-OK one
   * throws the classified error; an unreadable body throws the runtime's error.
   */
  function MakeRequest(response: Response): (r: Result<string, RequestError>)
    ensures r.Success? <==> response.OkResponse?
    ensures response.OkResponse? && response.content.Some? ==> r.value == response.content.value
    ensures response.OkResponse? && response.content.None? ==> r.value == ""
    ensures response.ErrorResponse? ==> r.error == ClassifyError(response.message)
    ensures response.Malformed? ==> r.error == Unreadable
  {
    match response
    case ErrorResponse(message) => Failure(ClassifyError(message))
    case OkResponse(content) => Success(content.GetOr(""))
    case Malformed => Failure(Unreadable)
  }

  /**
   * `sendMessage(messages)`: the reply to `SendMessageRequest(messages)`, where
   * `answer` is how the endpoint answers a request; an empty reply becomes the
   * fallback sentence and errors are rethrown.
   */
  function SendMessage(answer: Request -> Response, messages: seq<Message>): (r: Result<string, RequestError>)
    ensures r.Success? ==> r.value != ""
    ensures var response := answer(SendMessageRequest(messages));
            && (r.Success? <==> response.OkResponse?)
            && (response.OkResponse? ==>
                  r.value == (if response.content.Some? && response.content.value != "" then response.content.value else EmptyReplyFallback))
            && (response.ErrorResponse? ==> r.error == ClassifyError(response.message))
            && (response.Malformed? ==> r.error == Unreadable)
  {
    match MakeRequest(answer(SendMessageRequest(messages)))
    case Success(text) => Success(if text != "" then text else EmptyReplyFallback)
    case Failure(e) => Failure(e)
  }

  predicate IsQuote(c: char) {
    c == '"' || c == '\''
  }

  predicate IsClosingPunctuation(c: char) {
    c == '.' || c == '!' || c == '?'
  }

  /**
   * `replace(/^["']|["']$/g, '')`: a leading quote goes, then a trailing quote
   * of what is left goes; nothing else is removed, and no character twice.
   */
  function StripQuotes(s: string): (r: string)
    ensures IsSlice(r, s)
    ensures |s| - 2 <= |r|
    ensures var front := if s != [] && IsQuote(s[0]) then 1 else 0;
            && front + |r| <= |s|
            && r == s[front..front + |r|]
            && (front + |r| < |s| ==> front + |r| == |s| - 1 && IsQuote(s[|s| - 1]))
            && (front + |r| == |s| && r != [] ==> !IsQuote(r[|r| - 1]))
  {
    var afterLeading := if s != [] && IsQuote(s[0]) then s[1..] else s;
    var r := if afterLeading != [] && IsQuote(afterLeading[|afterLeading| - 1]) then afterLeading[..|afterLeading| - 1] else afterLeading;
    assert r == s[|s| - |afterLeading|..|s| - |afterLeading| + |r|];
    r
  }

  /** `replace(/[.!?]$/, '')`: one trailing full stop, exclamation or question mark goes. */
  function StripClosingPunctuation(s: string): (r: string)
    ensures r <= s && |s| - 1 <= |r|
    ensures r != s <==> s != [] && IsClosingPunctuation(s[|s| - 1])
  {
    if s != [] && IsClosingPunctuation(s[|s| - 1]) then s[..|s| - 1] else s
  }

  /** The title clean-up, before the `|| 'New Chat'` fallback: at most three characters go. */
  function CleanTitle(reply: string): (r: string)
    ensures |Trim(reply)| - 3 <= |r| <= |Trim(reply)|
  {
    StripClosingPunctuation(StripQuotes(Trim(reply)))
  }

  /** The cleaned title is a contiguous piece of the trimmed reply. */
  lemma CleanTitleIsSubstring(reply: string)
    ensures IsSlice(CleanTitle(reply), Trim(reply))
  {
    var t := Trim(reply);
    var q := StripQuotes(t);
    var p := StripClosingPunctuation(q);
    assert p == q[0..|p|];
    SliceOfSlice(p, q, t);
  }

  /** A title returned as asked (no surrounding whitespace, quotes or closing punctuation) is kept as is. */
  lemma CleanTitleKeepsWellFormedTitle(title: string)
    requires title != []
    requires !IsWhitespace(title[0]) && !IsWhitespace(title[|title| - 1])
    requires !IsQuote(title[0]) && !IsQuote(title[|title| - 1]) && !IsClosingPunctuation(title[|title| - 1])
    ensures CleanTitle(title) == title
  {
    TrimOfTrimmed(title);
  }

  /** A string without whitespace at either end is its own trim. */
  lemma TrimOfTrimmed(s: string)
    requires s != [] && !IsWhitespace(s[0]) && !IsWhitespace(s[|s| - 1])
    ensures Trim(s) == s
  {
    assert TrimStart(s) == s;
  }

  /**
   * `generateChatTitle(userMessage)`: sends `TitleRequest(userMessage)` to the
   * endpoint, whose answer to a request is `answer`, and cleans the reply step
   * by step; any failure, or nothing left, gives "New Chat".
   */
  method GenerateChatTitle(answer: Request -> Response, userMessage: string) returns (title: string)
    ensures title != ""
    ensures var reply := MakeRequest(answer(TitleRequest(userMessage)));
            title == if reply.Success? && CleanTitle(reply.value) != "" then CleanTitle(reply.value) else DefaultTitle
  {
    var reply := MakeRequest(answer(TitleRequest(userMessage)));
    if reply.Failure? {
      return DefaultTitle;
    }
    title := Trim(reply.value);
    title := StripQuotes(title);
    title := StripClosingPunctuation(title);
    if title == [] {
      title := DefaultTitle;
    }
  }
}
