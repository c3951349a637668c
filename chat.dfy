/**
 * The Ollama chat backend of src/lib/api.chat.ts: the request puts a fixed
 * system instruction before the caller's turns, and every streamed chunk
 * becomes one `{ response, done }` event. The backend call itself is a
 * parameter that supplies the chunks.
 */
module Chat {
  import opened Wrappers

  /** One conversation turn `{ role, content }`. */
  datatype Message = Message(role: string, content: string)

  /** The arguments of `ollama.chat`. */
  datatype Request = Request(model: string, messages: seq<Message>, stream: bool)

  /** One streamed chunk; its message content may be missing. */
  datatype Chunk = Chunk(content: Option<string>, done: bool)

  /** One event the adapter yields. */
  datatype Event = Event(response: string, done: bool)

  const Model: string := "qwen2.5:7b"
  const Prompt: string := "你是一个心理咨询师, 名叫小叶子. 请你以支持的, 非指导性的方式陪伴对方, 帮助对方探索自己, 并在需要时提供帮助. 请不要回复长的和正式的内容, 避免说教, 表现得像一个真实、专业、共情的心理咨询师. 再次提醒: 回复务必要简短!"

  /** The request `_chat_ollama` sends for the caller's `messages`. */
  function BuildRequest(messages: seq<Message>): (r: Request)
    ensures r.model == Model && r.stream
    ensures |r.messages| == |messages| + 1
    ensures r.messages[0].role == "system" && r.messages[0].content == Prompt
    ensures r.messages[1..] == messages
  {
    Request(Model, [Message("system", Prompt)] + messages, true)
  }

  /** The event yielded for one chunk. */
  function Translate(chunk: Chunk): (e: Event)
    ensures e.done == chunk.done
    ensures chunk.content.Some? ==> e.response == chunk.content.value
    ensures chunk.content.None? ==> e.response == ""
  {
    if chunk.done then Event(chunk.content.GetOr(""), true)
    else Event(chunk.content.GetOr(""), false)
  }

  /** The events yielded for a whole stream of chunks: one per chunk, in order. */
  function Stream(chunks: seq<Chunk>): (r: seq<Event>)
    ensures |r| == |chunks|
    ensures forall i :: 0 <= i < |chunks| ==> r[i].done == chunks[i].done
    ensures forall i :: 0 <= i < |chunks| ==> r[i].response == chunks[i].content.GetOr("")
  {
    if chunks == [] then [] else [Translate(chunks[0])] + Stream(chunks[1..])
  }

  /** `_chat_ollama(messages)` against a backend `respond` that answers a request with chunks. */
  function ChatOllama(messages: seq<Message>, respond: Request -> seq<Chunk>): (r: seq<Event>)
    ensures |r| == |respond(BuildRequest(messages))|
    ensures forall i :: 0 <= i < |r| ==> r[i] == Translate(respond(BuildRequest(messages))[i])
  {
    Stream(respond(BuildRequest(messages)))
  }

  /** No state is carried between chunks: the stream of a concatenation is the concatenation of the streams. */
  lemma {:induction false} StreamAppend(a: seq<Chunk>, b: seq<Chunk>)
    ensures Stream(a + b) == Stream(a) + Stream(b)
    decreases |a|
  {
    if a == [] {
      assert a + b == b;
    } else {
      assert (a + b)[1..] == a[1..] + b;
      StreamAppend(a[1..], b);
    }
  }

  /** The events for the chunks received so far are a prefix of the final events. */
  lemma StreamPrefix(chunks: seq<Chunk>, k: nat)
    requires k <= |chunks|
    ensures Stream(chunks[..k]) == Stream(chunks)[..k]
  {
    assert chunks == chunks[..k] + chunks[k..];
    StreamAppend(chunks[..k], chunks[k..]);
  }

  /** Fragments "你", "好", "!" followed by a completion chunk without content. */
  lemma StreamGreeting()
    ensures Stream([Chunk(Some("你"), false), Chunk(Some("好"), false), Chunk(Some("!"), false), Chunk(None, true)])
      == [Event("你", false), Event("好", false), Event("!", false), Event("", true)]
  {
  }
}
