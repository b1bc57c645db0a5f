// A role: a named persona with a stored system prompt, a private memory log
// and access to the chat-completion service (roles/base.py, class BaseRole).
module Base {
  import opened Chat

  /** The one error of the core: the service returned no text. */
  datatype GenerationError = GeneratedTextIsNone

  datatype Result<T> = Ok(value: T) | Err(error: GenerationError)

  /** Tag put in front of every generated text saved to memory. */
  const OutputTag := "Generated Output: "

  /** The memory entry recording a generated text. */
  function Saved(text: string): string
  {
    OutputTag + text
  }

  /** Stripping the tag from a memory entry gives back the generated text. */
  function Unsaved(entry: string): (text: Option<string>)
    ensures text.Some? ==> Saved(text.value) == entry
  {
    if |OutputTag| <= |entry| && entry[..|OutputTag|] == OutputTag
    then Some(entry[|OutputTag|..])
    else None
  }

  /** Every saved entry starts with the tag, and stripping it gives back the text. */
  lemma UnsavedSaved(text: string)
    ensures |OutputTag| <= |Saved(text)| && Saved(text)[..|OutputTag|] == OutputTag
    ensures Unsaved(Saved(text)) == Some(text)
  {
    assert Saved(text)[..|OutputTag|] == OutputTag;
    assert Saved(text)[|OutputTag|..] == text;
  }

  /** The system message a call uses: a non-empty override wins, otherwise the stored prompt. */
  function SystemMessage(systemOverride: Option<string>, stored: string): (system: string)
    ensures systemOverride.Some? && systemOverride.value != "" ==> system == systemOverride.value
    ensures systemOverride.None? || systemOverride.value == "" ==> system == stored
  {
    if systemOverride.Some? && systemOverride.value != "" then systemOverride.value else stored
  }

  /** What a call returns for a reply of the service: its text, or the error when there is none. */
  function Checked(reply: Option<string>): Result<string>
  {
    match reply
    case None => Err(GeneratedTextIsNone)
    case Some(text) => Ok(text)
  }

  /** The memory after a call that saves its output. */
  function Remember(memory: seq<string>, r: Result<string>): seq<string>
  {
    if r.Ok? then memory + [Saved(r.value)] else memory
  }

  class Role {
    const name: string
    const systemPrompt: string
    const service: ChatService
    /** The memory log, oldest entry first. */
    var memory: seq<string>

    constructor (name: string, systemPrompt: string, service: ChatService)
      ensures this.name == name && this.systemPrompt == systemPrompt && this.service == service
      ensures memory == []
    {
      this.name := name;
      this.systemPrompt := systemPrompt;
      this.service := service;
      memory := [];
    }

    /** Sends [system, user] to the service; fails when no text comes back,
        and otherwise saves the tagged text to memory unless told not to. */
    method Generate(userPrompt: string, systemOverride: Option<string>, saveToMemory: bool)
      returns (r: Result<string>)
      modifies this, service
      ensures service.sent == old(service.sent) + [Request(SystemMessage(systemOverride, systemPrompt), userPrompt)]
      ensures service.answered == old(service.answered) + 1
      ensures r == Checked(ReplyAt(service.script, old(service.answered)))
      ensures r.Err? ==> memory == old(memory)
      ensures memory == if saveToMemory then Remember(old(memory), r) else old(memory)
    {
      var messages: seq<Message> := [];
      if systemOverride.Some? && systemOverride.value != "" {
        messages := messages + [Message(System, systemOverride.value)];
      } else {
        messages := messages + [Message(System, systemPrompt)];
      }
      messages := messages + [Message(User, userPrompt)];
      assert messages == Request(SystemMessage(systemOverride, systemPrompt), userPrompt);

      var generatedText := service.Complete(messages);
      if generatedText.None? {
        return Err(GeneratedTextIsNone);
      }
      if saveToMemory {
        memory := memory + [Saved(generatedText.value)];
      }
      r := Ok(generatedText.value);
    }

    /** A copy of the memory in a new list, which the caller may change freely. */
    method GetMemory() returns (copy: array<string>)
      ensures fresh(copy)
      ensures copy[..] == memory
    {
      copy := new string[|memory|](i reads this requires 0 <= i < |memory| => memory[i]);
    }

    method ClearMemory()
      modifies this
      ensures memory == []
    {
      memory := [];
    }
  }
}
