// The narrator (roles/narrator.py): three prompt templates, each wrapping one
// saving call to the role's generate.
module NarratorRole {
  import opened Chat
  import opened Base
  import opened Templates

  const Name := "narrator"
  const DefaultSystemPrompt := "You are a master storyteller. Weave events into a compelling narrative."

  const HumanInputLead := "As a narrator, refine and set the scene based on the human's starting idea: '"
  const OutcomeLead := "As a narrator, interpret and describe the outcome: '"
  const OutcomeMid := "', following on from: '"
  const ActionLead := "As a narrator, describe the character performing the action: '"
  const ActionMid := "', in the context of: '"
  /** Closing text of both two-hole narrator templates. */
  const ClosingTail := "'."

  /** The scene-setting prompt: the human's idea, quoted, after a fixed lead. */
  function EditHumanInputPrompt(humanInput: string): string
  {
    Quote(HumanInputLead, humanInput)
  }

  lemma EditHumanInputPromptQuotes(humanInput: string)
    ensures Unquote(HumanInputLead, EditHumanInputPrompt(humanInput)) == Some(humanInput)
  {
    UnquoteQuote(HumanInputLead, humanInput);
  }

  /** The prompt that narrates a simulated outcome: the outcome first, then the context. */
  function EditSimulationOutputPrompt(simOutput: string, contextPrompt: string): string
  {
    Fill2(OutcomeLead, simOutput, OutcomeMid, contextPrompt, ClosingTail)
  }

  lemma EditSimulationOutputPromptHoles(simOutput: string, contextPrompt: string)
    ensures Unfill2(OutcomeLead, OutcomeMid, ClosingTail, |simOutput|, EditSimulationOutputPrompt(simOutput, contextPrompt))
            == Some((simOutput, contextPrompt))
  {
    UnfillFill2(OutcomeLead, simOutput, OutcomeMid, contextPrompt, ClosingTail);
  }

  /** The prompt that narrates an action: the action first, then the ongoing story. */
  function NarrateActionPrompt(actionTaken: string, ongoingPrompt: string): string
  {
    Fill2(ActionLead, actionTaken, ActionMid, ongoingPrompt, ClosingTail)
  }

  lemma NarrateActionPromptHoles(actionTaken: string, ongoingPrompt: string)
    ensures Unfill2(ActionLead, ActionMid, ClosingTail, |actionTaken|, NarrateActionPrompt(actionTaken, ongoingPrompt))
            == Some((actionTaken, ongoingPrompt))
  {
    UnfillFill2(ActionLead, actionTaken, ActionMid, ongoingPrompt, ClosingTail);
  }

  class Narrator {
    const role: Role

    constructor (systemPrompt: string, service: ChatService)
      ensures fresh(role)
      ensures role.name == Name && role.systemPrompt == systemPrompt && role.service == service
      ensures role.memory == []
    {
      role := new Role(Name, systemPrompt, service);
    }

    method EditHumanInput(humanInput: string) returns (r: Result<string>)
      modifies role, role.service
      ensures role.service.sent == old(role.service.sent) + [Request(role.systemPrompt, EditHumanInputPrompt(humanInput))]
      ensures role.service.answered == old(role.service.answered) + 1
      ensures r == Checked(ReplyAt(role.service.script, old(role.service.answered)))
      ensures role.memory == Remember(old(role.memory), r)
    {
      r := role.Generate(EditHumanInputPrompt(humanInput), None, true);
    }

    method EditSimulationOutput(simOutput: string, contextPrompt: string) returns (r: Result<string>)
      modifies role, role.service
      ensures role.service.sent
              == old(role.service.sent) + [Request(role.systemPrompt, EditSimulationOutputPrompt(simOutput, contextPrompt))]
      ensures role.service.answered == old(role.service.answered) + 1
      ensures r == Checked(ReplyAt(role.service.script, old(role.service.answered)))
      ensures role.memory == Remember(old(role.memory), r)
    {
      r := role.Generate(EditSimulationOutputPrompt(simOutput, contextPrompt), None, true);
    }

    method NarrateAction(actionTaken: string, ongoingPrompt: string) returns (r: Result<string>)
      modifies role, role.service
      ensures role.service.sent
              == old(role.service.sent) + [Request(role.systemPrompt, NarrateActionPrompt(actionTaken, ongoingPrompt))]
      ensures role.service.answered == old(role.service.answered) + 1
      ensures r == Checked(ReplyAt(role.service.script, old(role.service.answered)))
      ensures role.memory == Remember(old(role.memory), r)
    {
      r := role.Generate(NarrateActionPrompt(actionTaken, ongoingPrompt), None, true);
    }
  }
}
