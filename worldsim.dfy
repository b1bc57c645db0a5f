// The world simulator (roles/worldsim.py): one prompt template wrapping one
// saving call to the role's generate.
module WorldSimRole {
  import opened Chat
  import opened Base
  import opened Templates

  const Name := "worldsim"
  const DefaultSystemPrompt := "You are a detailed world simulator. Describe environments and events realistically based on the current situation."

  const SituationLead := "As the world simulator, describe what happens next given the situation: '"

  /** The prompt asking what happens next: the situation, quoted, after a fixed lead. */
  function SimulateWorldEventPrompt(currentSituation: string): string
  {
    Quote(SituationLead, currentSituation)
  }

  lemma SimulateWorldEventPromptQuotes(currentSituation: string)
    ensures Unquote(SituationLead, SimulateWorldEventPrompt(currentSituation)) == Some(currentSituation)
  {
    UnquoteQuote(SituationLead, currentSituation);
  }

  class WorldSim {
    const role: Role

    constructor (systemPrompt: string, service: ChatService)
      ensures fresh(role)
      ensures role.name == Name && role.systemPrompt == systemPrompt && role.service == service
      ensures role.memory == []
    {
      role := new Role(Name, systemPrompt, service);
    }

    method SimulateWorldEvent(currentSituation: string) returns (r: Result<string>)
      modifies role, role.service
      ensures role.service.sent
              == old(role.service.sent) + [Request(role.systemPrompt, SimulateWorldEventPrompt(currentSituation))]
      ensures role.service.answered == old(role.service.answered) + 1
      ensures r == Checked(ReplyAt(role.service.script, old(role.service.answered)))
      ensures role.memory == Remember(old(role.memory), r)
    {
      r := role.Generate(SimulateWorldEventPrompt(currentSituation), None, true);
    }
  }
}
