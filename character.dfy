// The character (roles/character.py): a single protagonist, one prompt
// template wrapping one saving call to the role's generate.
module CharacterRole {
  import opened Chat
  import opened Base
  import opened Templates

  const Name := "character"

  const SituationLead := "As the character, decide your next action based on: '"

  /** The prompt asking for the next action: the situation, quoted, after a fixed lead. */
  function DecideCharacterActionPrompt(currentSituation: string): string
  {
    Quote(SituationLead, currentSituation)
  }

  lemma DecideCharacterActionPromptQuotes(currentSituation: string)
    ensures Unquote(SituationLead, DecideCharacterActionPrompt(currentSituation)) == Some(currentSituation)
  {
    UnquoteQuote(SituationLead, currentSituation);
  }

  class Character {
    const role: Role

    constructor (systemPrompt: string, service: ChatService)
      ensures fresh(role)
      ensures role.name == Name && role.systemPrompt == systemPrompt && role.service == service
      ensures role.memory == []
    {
      role := new Role(Name, systemPrompt, service);
    }

    method DecideCharacterAction(currentSituation: string) returns (r: Result<string>)
      modifies role, role.service
      ensures role.service.sent
              == old(role.service.sent) + [Request(role.systemPrompt, DecideCharacterActionPrompt(currentSituation))]
      ensures role.service.answered == old(role.service.answered) + 1
      ensures r == Checked(ReplyAt(role.service.script, old(role.service.answered)))
      ensures role.memory == Remember(old(role.memory), r)
    {
      r := role.Generate(DecideCharacterActionPrompt(currentSituation), None, true);
    }
  }
}
