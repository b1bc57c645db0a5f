// The chat-completion service that every role talks to. The remote service
// is out of reach, so it is modelled as a scripted stub: it hands out the
// replies of a script fixed in advance, one per request and in order, and it
// records every request it receives. A reply of None is the service
// returning no text; an exhausted script answers None as well.
module Chat {

  datatype Option<T> = None | Some(value: T)

  /** Who speaks in a chat message. */
  datatype Speaker = System | User

  datatype Message = Message(speaker: Speaker, content: string)

  /** The message list of one request: the system message first, then the user message. */
  function Request(system: string, user: string): seq<Message>
  {
    [Message(System, system), Message(User, user)]
  }

  /** The reply the service gives to request number k (counting from 0): the k-th reply of
      the script, or no text once the script is exhausted. */
  function ReplyAt(script: seq<Option<string>>, k: nat): Option<string>
  {
    if k < |script| then script[k] else None
  }

  class ChatService {
    /** The replies, in the order they are handed out. */
    const script: seq<Option<string>>
    /** How many requests have been answered so far. */
    var answered: nat
    /** Every request received so far, in order. */
    var sent: seq<seq<Message>>

    constructor (script: seq<Option<string>>)
      ensures this.script == script && answered == 0 && sent == []
    {
      this.script := script;
      answered := 0;
      sent := [];
    }

    /** One chat-completion round trip. */
    method Complete(messages: seq<Message>) returns (reply: Option<string>)
      modifies this
      ensures reply == ReplyAt(script, old(answered))
      ensures answered == old(answered) + 1
      ensures sent == old(sent) + [messages]
    {
      sent := sent + [messages];
      if answered < |script| {
        reply := script[answered];
      } else {
        reply := None;
      }
      answered := answered + 1;
    }
  }
}
