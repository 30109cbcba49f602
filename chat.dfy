/**
 * The chat side of a conversational turn, common to both copies of the app:
 * the role-tagged message list sent to the chat-completion service, the
 * conversation history it is built from, and the empty-input test.
 *
 * The chat-completion call itself is abstract: its answer is a `ChatReply`
 * handed in by the caller.
 */
module Chat {
  import opened Common

  datatype Role = System | User | Assistant

  datatype Message = Message(role: Role, content: string)

  /** One history entry, a dictionary with a `user` key and, normally, an `assistant` key. */
  datatype Entry = Entry(user: string, assistant: Option<string>)

  /** The answer of the chat-completion service: a reply text, or an exception with its text. */
  datatype ChatReply = Completed(text: string) | ChatFault(error: string)

  /** What `process_message` did with one input: nothing, for a blank input, or
    * the messages sent, the reply shown and the outcome of speaking it. */
  datatype Turn<S> = Skipped | Answered(sent: seq<Message>, reply: string, speech: S)

  const SorryPrefix: string := "Sorry, I couldn't generate a response: "

  /** The messages one history entry contributes: its user message, then its
    * assistant message if the entry has one. */
  function EntryMessages(e: Entry): seq<Message> {
    [Message(User, e.user)] + (if e.assistant.Some? then [Message(Assistant, e.assistant.value)] else [])
  }

  function AnsweredCount(h: seq<Entry>): nat {
    if h == [] then 0 else (if h[0].assistant.Some? then 1 else 0) + AnsweredCount(h[1..])
  }

  /** The messages of a whole history, entry by entry in order. */
  function HistoryMessages(h: seq<Entry>): (m: seq<Message>)
    ensures |m| == |h| + AnsweredCount(h)
    ensures h != [] ==> m[0] == Message(User, h[0].user)
  {
    if h == [] then [] else EntryMessages(h[0]) + HistoryMessages(h[1..])
  }

  /** The message list for one request: the system prompt, the history, then the current input. */
  function Prompt(system: string, h: seq<Entry>, input: string): (m: seq<Message>)
    ensures |m| == |h| + AnsweredCount(h) + 2
    ensures m[0] == Message(System, system) && m[|m| - 1] == Message(User, input)
    ensures m[1..|m| - 1] == HistoryMessages(h)
  {
    [Message(System, system)] + HistoryMessages(h) + [Message(User, input)]
  }

  /** The history entries a turn adds: one on a completed reply, none on a fault. */
  function Recorded(input: string, chat: ChatReply): seq<Entry> {
    if chat.Completed? then [Entry(input, Some(chat.text))] else []
  }

  /** The text a turn shows and speaks. */
  function ReplyText(chat: ChatReply): string {
    match chat
    case Completed(text) => text
    case ChatFault(error) => SorryPrefix + error
  }

  /** Appending one entry to the history appends its messages. */
  lemma {:induction false} HistoryMessagesAppend(h: seq<Entry>, e: Entry)
    ensures HistoryMessages(h + [e]) == HistoryMessages(h) + EntryMessages(e)
  {
    if h != [] {
      assert (h + [e])[1..] == h[1..] + [e];
      HistoryMessagesAppend(h[1..], e);
    }
  }

  /** When every entry has an assistant message, the history messages
    * alternate: the user message of entry i at 2i, its reply at 2i + 1. */
  lemma {:induction false} CompleteHistoryAlternates(h: seq<Entry>, i: nat)
    requires forall k :: 0 <= k < |h| ==> h[k].assistant.Some?
    requires i < |h|
    ensures |HistoryMessages(h)| == 2 * |h|
    ensures HistoryMessages(h)[2 * i] == Message(User, h[i].user)
    ensures HistoryMessages(h)[2 * i + 1] == Message(Assistant, h[i].assistant.value)
  {
    if i == 0 {
      if |h| > 1 {
        CompleteHistoryAlternates(h[1..], 0);
      } else {
        assert h[1..] == [];
      }
    } else {
      CompleteHistoryAlternates(h[1..], i - 1);
    }
  }

  /** After a completed turn, the next request's messages are this request's
    * messages followed by the assistant's reply and the next input. */
  lemma NextPromptExtends(system: string, h: seq<Entry>, input: string, reply: string, next: string)
    ensures Prompt(system, h + [Entry(input, Some(reply))], next) ==
            Prompt(system, h, input) + [Message(Assistant, reply), Message(User, next)]
  {
    HistoryMessagesAppend(h, Entry(input, Some(reply)));
  }

  /** A code point that Python's `str.strip()` removes (`str.isspace`). */
  predicate IsSpace(c: char) {
    var n := c as int;
    || 0x09 <= n <= 0x0D || 0x1C <= n <= 0x20 || n == 0x85 || n == 0xA0 || n == 0x1680
    || 0x2000 <= n <= 0x200A || n == 0x2028 || n == 0x2029 || n == 0x202F || n == 0x205F || n == 0x3000
  }

  /** `s.lstrip()`: the suffix of `s` after its leading whitespace. */
  function LStrip(s: string): (r: string)
    ensures |r| <= |s| && r == s[|s| - |r|..]
    ensures r == [] || !IsSpace(r[0])
    ensures forall i :: 0 <= i < |s| - |r| ==> IsSpace(s[i])
  {
    if |s| > 0 && IsSpace(s[0]) then LStrip(s[1..]) else s
  }

  /** `s.rstrip()`: the prefix of `s` before its trailing whitespace. */
  function RStrip(s: string): (r: string)
    ensures |r| <= |s| && r == s[..|r|]
    ensures r == [] || !IsSpace(r[|r| - 1])
    ensures forall i :: |r| <= i < |s| ==> IsSpace(s[i])
  {
    if |s| > 0 && IsSpace(s[|s| - 1]) then RStrip(s[..|s| - 1]) else s
  }

  /** `s.strip()`; it is empty, so that `not s.strip()` holds, exactly when
    * `s` consists of whitespace only. */
  function Strip(s: string): (r: string)
    ensures r == [] <==> forall i :: 0 <= i < |s| ==> IsSpace(s[i])
  {
    RStrip(LStrip(s))
  }

  /** The message-list construction of `generate_response`, one history entry per iteration. */
  method BuildMessages(system: string, history: seq<Entry>, input: string) returns (messages: seq<Message>)
    ensures messages == Prompt(system, history, input)
  {
    messages := [Message(System, system)];
    for i := 0 to |history|
      invariant messages == [Message(System, system)] + HistoryMessages(history[..i])
    {
      var entry := history[i];
      messages := messages + [Message(User, entry.user)];
      if entry.assistant.Some? {
        messages := messages + [Message(Assistant, entry.assistant.value)];
      }
      assert history[..i + 1] == history[..i] + [entry];
      HistoryMessagesAppend(history[..i], entry);
    }
    assert history[..|history|] == history;
    messages := messages + [Message(User, input)];
  }

  /** The session state a turn reads and updates. */
  class Session {
    var history: seq<Entry>
    var audioFile: Option<seq<byte>>

    constructor ()
      ensures history == [] && audioFile == None
    {
      history, audioFile := [], None;
    }

    /** `generate_response`: send the messages, and on a completed reply record
      * exactly one new history entry. */
    method GenerateResponse(system: string, input: string, chat: ChatReply) returns (reply: string, sent: seq<Message>)
      modifies this`history
      ensures sent == Prompt(system, old(history), input)
      ensures reply == ReplyText(chat)
      ensures history == old(history) + Recorded(input, chat)
    {
      sent := BuildMessages(system, history, input);
      match chat
      case Completed(text) =>
        history := history + [Entry(input, Some(text))];
        reply := text;
      case ChatFault(error) =>
        reply := SorryPrefix + error;
    }
  }
}
