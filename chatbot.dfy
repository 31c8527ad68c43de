/**
  The chat panel (`Chatbot`). It owns the transcript, the text in the input box
  and a loading flag. `handleSend` is asynchronous; it is split here at its one
  `await`: `Send` is everything before the call to the AI service and yields
  the request it would make, and `Complete` is what runs when the call settles,
  given the service's answer as an input (`Reply`).
*/
module Chatbot {
  import opened Types

  datatype Role = User | Model
  datatype Message = Message(role: Role, content: string)

  /** The service's wire shape for one earlier turn: `{ role, parts: [{ text }] }`. */
  datatype Part = Part(text: string)
  datatype Turn = Turn(role: Role, parts: seq<Part>)

  /** One call to the chat service: the new message and the turns before it. */
  datatype Request = Request(message: string, history: seq<Turn>)

  /**
    How the call settles: with some text, with no text (`undefined`), or by throwing.
    An empty text is falsy in the source and is treated like no text.
  */
  datatype Reply = Text(text: string) | NoText | Failed

  const Greeting: string := "Hi! I'm Chronos. How can I help you manage your time or plan your day?"
  const Apology: string := "I'm sorry, I couldn't process that."
  const ErrorNotice: string := "An error occurred. Please try again later."

  /** The characters `String.prototype.trim` removes: white space and line terminators. */
  const SpaceChars: set<char> := {
    '\t', '\n', '\U{B}', '\U{C}', '\r', ' ', '\U{A0}', '\U{1680}',
    '\U{2000}', '\U{2001}', '\U{2002}', '\U{2003}', '\U{2004}', '\U{2005}',
    '\U{2006}', '\U{2007}', '\U{2008}', '\U{2009}', '\U{200A}',
    '\U{2028}', '\U{2029}', '\U{202F}', '\U{205F}', '\U{3000}', '\U{FEFF}'
  }

  predicate IsSpace(c: char) {
    c in SpaceChars
  }

  predicate AllSpace(s: string) {
    forall i :: 0 <= i < |s| ==> IsSpace(s[i])
  }

  /** Drops leading white space. */
  function TrimStart(s: string): string {
    if s != [] && IsSpace(s[0]) then TrimStart(s[1..]) else s
  }

  /** Drops trailing white space. */
  function TrimEnd(s: string): string {
    if s != [] && IsSpace(s[|s| - 1]) then TrimEnd(s[..|s| - 1]) else s
  }

  /** `String.prototype.trim`: the result is no longer than `s` and neither starts nor ends with white space. */
  function Trim(s: string): (r: string)
    ensures |r| <= |s|
    ensures r != [] ==> !IsSpace(r[0]) && !IsSpace(r[|r| - 1])
  {
    var t := TrimStart(s);
    TrimStartSuffix(s);
    TrimEndPrefix(t);
    var r := TrimEnd(t);
    assert r != [] ==> r[0] == t[0];
    r
  }

  lemma {:induction false} TrimStartIsSuffix(s: string)
    ensures |TrimStart(s)| <= |s| && TrimStart(s) == s[|s| - |TrimStart(s)|..]
  {
    if s != [] && IsSpace(s[0]) {
      TrimStartIsSuffix(s[1..]);
    }
  }

  lemma {:induction false} TrimStartDropsSpace(s: string, i: nat)
    requires i < |s| - |TrimStart(s)|
    ensures IsSpace(s[i])
  {
    if i > 0 {
      TrimStartDropsSpace(s[1..], i - 1);
    }
  }

  lemma {:induction false} TrimStartNonSpace(s: string)
    ensures TrimStart(s) == [] || !IsSpace(TrimStart(s)[0])
  {
    if s != [] && IsSpace(s[0]) {
      TrimStartNonSpace(s[1..]);
    }
  }

  /** `TrimStart` keeps the suffix of `s` that starts with a non-space, and drops only white space. */
  lemma TrimStartSuffix(s: string)
    ensures |TrimStart(s)| <= |s| && TrimStart(s) == s[|s| - |TrimStart(s)|..]
    ensures AllSpace(s[..|s| - |TrimStart(s)|])
    ensures TrimStart(s) == [] || !IsSpace(TrimStart(s)[0])
  {
    TrimStartIsSuffix(s);
    TrimStartNonSpace(s);
    var k := |s| - |TrimStart(s)|;
    forall i | 0 <= i < k ensures IsSpace(s[..k][i]) {
      assert s[..k][i] == s[i];
      TrimStartDropsSpace(s, i);
    }
  }

  lemma {:induction false} TrimEndIsPrefix(s: string)
    ensures |TrimEnd(s)| <= |s| && TrimEnd(s) == s[..|TrimEnd(s)|]
  {
    if s != [] && IsSpace(s[|s| - 1]) {
      TrimEndIsPrefix(s[..|s| - 1]);
    }
  }

  lemma {:induction false} TrimEndDropsSpace(s: string, i: nat)
    requires |TrimEnd(s)| <= i < |s|
    ensures IsSpace(s[i])
  {
    if i < |s| - 1 {
      TrimEndDropsSpace(s[..|s| - 1], i);
    }
  }

  lemma {:induction false} TrimEndNonSpace(s: string)
    ensures TrimEnd(s) == [] || !IsSpace(TrimEnd(s)[|TrimEnd(s)| - 1])
  {
    if s != [] && IsSpace(s[|s| - 1]) {
      TrimEndNonSpace(s[..|s| - 1]);
    }
  }

  /** `TrimEnd` keeps the prefix of `s` that ends with a non-space, and drops only white space. */
  lemma TrimEndPrefix(s: string)
    ensures |TrimEnd(s)| <= |s| && TrimEnd(s) == s[..|TrimEnd(s)|]
    ensures AllSpace(s[|TrimEnd(s)|..])
    ensures TrimEnd(s) == [] || !IsSpace(TrimEnd(s)[|TrimEnd(s)| - 1])
  {
    TrimEndIsPrefix(s);
    TrimEndNonSpace(s);
    var k := |TrimEnd(s)|;
    forall i | 0 <= i < |s| - k ensures IsSpace(s[k..][i]) {
      assert s[k..][i] == s[k + i];
      TrimEndDropsSpace(s, k + i);
    }
  }

  /** `trim` keeps one contiguous slice of `s`, starting at offset `|s| - |TrimStart(s)|`. */
  lemma TrimKeepsSlice(s: string)
    ensures |Trim(s)| <= |TrimStart(s)| <= |s|
    ensures Trim(s) == s[|s| - |TrimStart(s)|..|s| - |TrimStart(s)| + |Trim(s)|]
  {
    var t := TrimStart(s);
    TrimStartSuffix(s);
    TrimEndPrefix(t);
    PrefixOfSuffix(s, t, TrimEnd(t));
  }

  /** Everything `trim` drops, before and after the kept slice, is white space. */
  lemma TrimDropsOnlySpace(s: string)
    ensures |Trim(s)| <= |TrimStart(s)| <= |s|
    ensures AllSpace(s[..|s| - |TrimStart(s)|])
    ensures AllSpace(s[|s| - |TrimStart(s)| + |Trim(s)|..])
  {
    var t := TrimStart(s);
    TrimStartSuffix(s);
    TrimEndPrefix(t);
    PrefixOfSuffix(s, t, TrimEnd(t));
  }

  /** A prefix `r` of a suffix `t` of `s` is a slice of `s`; blank space after `r` in `t` is blank space after it in `s`. */
  lemma PrefixOfSuffix(s: string, t: string, r: string)
    requires |r| <= |t| <= |s| && t == s[|s| - |t|..] && r == t[..|r|] && AllSpace(t[|r|..])
    ensures r == s[|s| - |t|..|s| - |t| + |r|] && AllSpace(s[|s| - |t| + |r|..])
  {
    var a := |s| - |t|;
    assert t[|r|..] == s[a + |r|..];
  }

  /** The trimmed text is empty exactly when `s` is blank. */
  lemma TrimEmpty(s: string)
    ensures Trim(s) == [] <==> AllSpace(s)
  {
    var t := TrimStart(s);
    TrimStartSuffix(s);
    TrimEndPrefix(t);
    assert t[0..] == t;
    assert s[..|s|] == s;
  }

  /** Trimming twice trims nothing more. */
  lemma TrimIdempotent(s: string)
    ensures Trim(Trim(s)) == Trim(s)
  {
    var r := Trim(s);
    if r != [] {
      assert TrimStart(r) == r;
      assert TrimEnd(r) == r;
    }
  }

  /** `messages.map(m => ({ role: m.role, parts: [{ text: m.content }] }))` */
  function History(ms: seq<Message>): (h: seq<Turn>)
    ensures |h| == |ms|
    ensures forall i :: 0 <= i < |ms| ==> h[i].role == ms[i].role && h[i].parts == [Part(ms[i].content)]
  {
    if ms == [] then [] else History(ms[..|ms| - 1]) + [Turn(ms[|ms| - 1].role, [Part(ms[|ms| - 1].content)])]
  }

  /** Reads a history back as messages, taking each turn's first part. */
  function Transcript(h: seq<Turn>): seq<Message> {
    seq(|h|, i requires 0 <= i < |h| => Message(h[i].role, if h[i].parts == [] then [] else h[i].parts[0].text))
  }

  /** The history loses nothing: same length, order, roles and texts as the transcript. */
  lemma HistoryRoundTrip(ms: seq<Message>)
    ensures Transcript(History(ms)) == ms
  {
  }

  /** The message the panel appends when the call settles. */
  function ReplyMessage(reply: Reply): (m: Message)
    ensures m.role == Model
    ensures reply.Text? && reply.text != [] ==> m.content == reply.text
    ensures reply.NoText? || reply == Text([]) ==> m.content == Apology
    ensures reply.Failed? ==> m.content == ErrorNotice
  {
    match reply
    case Text(t) => Message(Model, if t != [] then t else Apology)
    case NoText => Message(Model, Apology)
    case Failed => Message(Model, ErrorNotice)
  }

  datatype ChatState = ChatState(messages: seq<Message>, input: string, isLoading: bool)

  /** The panel as first rendered: one greeting from the model, an empty box, not loading. */
  const Initial := ChatState([Message(Model, Greeting)], "", false)

  /** `handleSend` proceeds only for non-blank input and when no request is in flight. */
  function CanSend(c: ChatState): (b: bool)
    ensures b <==> !AllSpace(c.input) && !c.isLoading
  {
    TrimEmpty(c.input);
    Trim(c.input) != [] && !c.isLoading
  }

  /** The part of `handleSend` before the `await`. */
  function SendStep(c: ChatState): (r: ChatState)
    ensures !CanSend(c) ==> r == c
    ensures CanSend(c) ==>
              r.input == [] && r.isLoading && r.messages == c.messages + [Message(User, Trim(c.input))]
  {
    if !CanSend(c) then c
    else ChatState(c.messages + [Message(User, Trim(c.input))], [], true)
  }

  /** The request `handleSend` makes: the trimmed text, and the transcript as it was before the user's message. */
  function Outgoing(c: ChatState): (r: Option<Request>)
    ensures r.Some? <==> CanSend(c)
    ensures r.Some? ==> r.value.message == Trim(c.input) && r.value.message != [] &&
                        Transcript(r.value.history) == c.messages
  {
    HistoryRoundTrip(c.messages);
    if CanSend(c) then Some(Request(Trim(c.input), History(c.messages))) else None
  }

  /** The part of `handleSend` after the `await`, in every outcome: one model message, then not loading. */
  function CompleteStep(c: ChatState, reply: Reply): (r: ChatState)
    ensures r.messages == c.messages + [ReplyMessage(reply)]
    ensures !r.isLoading && r.input == c.input
  {
    ChatState(c.messages + [ReplyMessage(reply)], c.input, false)
  }

  /** A valid send followed by its reply adds exactly the user's message and one reply. */
  lemma SendThenComplete(c: ChatState, reply: Reply)
    requires CanSend(c)
    ensures CompleteStep(SendStep(c), reply) ==
              ChatState(c.messages + [Message(User, Trim(c.input)), ReplyMessage(reply)], [], false)
  {
  }

  /** What can happen to the panel: typing, pressing send, the pending call settling. */
  datatype Event = Typed(text: string) | Sent | Completed(reply: Reply)

  function Step(c: ChatState, e: Event): ChatState {
    match e
    case Typed(text) => c.(input := text)
    case Sent => SendStep(c)
    case Completed(reply) => CompleteStep(c, reply)
  }

  function Run(c: ChatState, es: seq<Event>): ChatState
    decreases |es|
  {
    if es == [] then c else Run(Step(c, es[0]), es[1..])
  }

  /** The transcript is append-only: whatever happens, the old transcript is a prefix of the new one. */
  lemma {:induction false} AppendOnly(c: ChatState, es: seq<Event>)
    ensures c.messages <= Run(c, es).messages
    decreases |es|
  {
    if es != [] {
      AppendOnly(Step(c, es[0]), es[1..]);
    }
  }

  /** Every event adds at most one message, and only a send or a completion adds one. */
  lemma StepGrowth(c: ChatState, e: Event)
    ensures |Step(c, e).messages| <= |c.messages| + 1
    ensures e.Typed? ==> Step(c, e).messages == c.messages
  {
  }

  /** What the panel renders when open: the bubbles, the "Thinking..." row, and whether the send button is disabled. */
  datatype ChatView = ChatView(bubbles: seq<Message>, thinking: bool, sendDisabled: bool)

  class ChatPanel {
    var messages: seq<Message>
    var input: string
    var isLoading: bool

    function State(): ChatState
      reads this
    {
      ChatState(messages, input, isLoading)
    }

    constructor ()
      ensures State() == Initial
    {
      messages := [Message(Model, Greeting)];
      input := "";
      isLoading := false;
    }

    /** Typing in the input box. */
    method SetInput(text: string)
      modifies this
      ensures State() == old(State()).(input := text)
    {
      input := text;
    }

    /**
      `handleSend` up to the `await`. The history is built from the transcript as the
      handler saw it, before its own message was appended.
    */
    method Send() returns (request: Option<Request>)
      modifies this
      ensures State() == SendStep(old(State()))
      ensures request == Outgoing(old(State()))
    {
      if Trim(input) == [] || isLoading {
        return None;
      }
      var before := messages;
      var userMsg := Trim(input);
      input := "";
      messages := messages + [Message(User, userMsg)];
      isLoading := true;
      request := Some(Request(userMsg, History(before)));
    }

    /** The call to the service settles with `reply` (the `then`, `catch` and `finally` of `handleSend`). */
    method Complete(reply: Reply)
      modifies this
      ensures State() == CompleteStep(old(State()), reply)
    {
      var content: string;
      match reply {
        case Text(t) => content := if t != [] then t else Apology;
        case NoText => content := Apology;
        case Failed => content := ErrorNotice;
      }
      messages := messages + [Message(Model, content)];
      isLoading := false;
    }

    /** Closed, the panel renders nothing; its state is kept either way. */
    function View(isOpen: bool): (v: Option<ChatView>)
      reads this
      ensures v.Some? <==> isOpen
      ensures v.Some? ==> v.value.bubbles == messages && v.value.thinking == isLoading == v.value.sendDisabled
    {
      if isOpen then Some(ChatView(messages, isLoading, isLoading)) else None
    }
  }
}
