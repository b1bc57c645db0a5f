// The orchestration (weave.py, main): one scene-setting call, then a fixed
// number of rounds WorldSim -> Narrator -> Character -> Narrator threading a
// single prompt string, then one compile over the memories of narrator,
// worldsim and character.
//
// main creates one service and all four roles talk to it, so a run is
// determined by the script R of replies the service hands out. The k-th
// reply R[k] answers the k-th call of the run: R[0] answers the
// scene-setting call, R[4r+1] .. R[4r+4] answer the four calls of round r,
// and R[4n+1] answers the compile.
module Weave {
  import opened Chat
  import opened Base
  import opened NarratorRole
  import opened WorldSimRole
  import opened CharacterRole
  import opened EditorRole

  /** The system prompts of the four roles. */
  datatype Cast = Cast(narrator: string, worldsim: string, character: string, editor: string)

  /** The roles as the program builds them; the character's prompt has no default and is given. */
  function DefaultCast(characterPrompt: string): Cast
  {
    Cast(NarratorRole.DefaultSystemPrompt, WorldSimRole.DefaultSystemPrompt, characterPrompt, EditorRole.DefaultSystemPrompt)
  }

  /** The number of rounds: a range over a negative count is empty. */
  function Rounds(maxIterations: int): nat
  {
    if maxIterations < 0 then 0 else maxIterations
  }

  /** The first k replies of the script are texts. */
  ghost predicate Delivered(R: seq<Option<string>>, k: nat)
  {
    k <= |R| && forall j :: 0 <= j < k ==> R[j].Some?
  }

  /** The position of the first reply among the first k that is not a text, or k when all of them are texts. */
  ghost function FirstMissing(R: seq<Option<string>>, k: nat): (m: nat)
    ensures m <= k
  {
    if k == 0 then 0
    else
      var m := FirstMissing(R, k - 1);
      if m < k - 1 then m
      else if ReplyAt(R, k - 1).None? then k - 1
      else k
  }

  /** FirstMissing is the least position among the first k whose reply is not a text, and it is k exactly when all were delivered. */
  lemma {:induction false} FirstMissingSpec(R: seq<Option<string>>, k: nat)
    ensures forall j :: 0 <= j < FirstMissing(R, k) ==> ReplyAt(R, j).Some?
    ensures FirstMissing(R, k) < k ==> ReplyAt(R, FirstMissing(R, k)).None?
    ensures FirstMissing(R, k) == k <==> Delivered(R, k)
  {
    if k > 0 {
      FirstMissingSpec(R, k - 1);
    }
  }

  /** A reply that is not a text, after texts only, is the first missing one of any longer prefix. */
  lemma FirstMissingIs(R: seq<Option<string>>, a: nat, k: nat)
    requires a < k && ReplyAt(R, a).None?
    requires forall j :: 0 <= j < a ==> ReplyAt(R, j).Some?
    ensures FirstMissing(R, k) == a
  {
    FirstMissingSpec(R, k);
    var m := FirstMissing(R, k);
    assert m <= a;
    assert m < k;
  }

  /** Once a reply is missing, looking further along the script does not move the first missing one. */
  lemma FirstMissingExtend(R: seq<Option<string>>, k: nat, K: nat)
    requires k <= K && !Delivered(R, k)
    ensures FirstMissing(R, K) == FirstMissing(R, k)
  {
    FirstMissingSpec(R, k);
    FirstMissingIs(R, FirstMissing(R, k), K);
  }

  /** When one of two consecutive replies after delivered ones is missing, it is the first missing one. */
  lemma PairFailure(R: seq<Option<string>>, b: nat, k: nat)
    requires Delivered(R, b) && b + 1 < k
    requires ReplyAt(R, b).None? || ReplyAt(R, b + 1).None?
    ensures FirstMissing(R, k) == if ReplyAt(R, b).None? then b else b + 1
  {
    if ReplyAt(R, b).None? {
      FirstMissingIs(R, b, k);
    } else {
      FirstMissingIs(R, b + 1, k);
    }
  }

  /** The narrator's memory after the scene and n rounds: the scene, then per round the edited outcome and the narrated action. */
  ghost function NarratorLog(R: seq<Option<string>>, n: nat): seq<string>
    requires Delivered(R, 4 * n + 1)
  {
    if n == 0 then [Saved(R[0].value)]
    else NarratorLog(R, n - 1) + [Saved(R[4 * n - 2].value), Saved(R[4 * n].value)]
  }

  /** The world simulator's memory after n rounds: one simulated event per round. */
  ghost function WorldLog(R: seq<Option<string>>, n: nat): seq<string>
    requires Delivered(R, 4 * n)
  {
    if n == 0 then [] else WorldLog(R, n - 1) + [Saved(R[4 * n - 3].value)]
  }

  /** The character's memory after n rounds: one action per round. */
  ghost function CharacterLog(R: seq<Option<string>>, n: nat): seq<string>
    requires Delivered(R, 4 * n)
  {
    if n == 0 then [] else CharacterLog(R, n - 1) + [Saved(R[4 * n - 1].value)]
  }

  /** The four requests of round r, which starts from the prompt R[4r]. */
  ghost function RoundRequests(c: Cast, R: seq<Option<string>>, r: nat): seq<seq<Message>>
    requires Delivered(R, 4 * r + 4)
  {
    [ Request(c.worldsim, SimulateWorldEventPrompt(R[4 * r].value)),
      Request(c.narrator, EditSimulationOutputPrompt(R[4 * r + 1].value, R[4 * r].value)),
      Request(c.character, DecideCharacterActionPrompt(R[4 * r + 2].value)),
      Request(c.narrator, NarrateActionPrompt(R[4 * r + 3].value, R[4 * r + 2].value)) ]
  }

  /** The requests of the scene-setting call and of n rounds, in call order. */
  ghost function Requests(c: Cast, humanInput: string, R: seq<Option<string>>, n: nat): seq<seq<Message>>
    requires Delivered(R, 4 * n)
  {
    if n == 0 then [Request(c.narrator, EditHumanInputPrompt(humanInput))]
    else Requests(c, humanInput, R, n - 1) + RoundRequests(c, R, n - 1)
  }

  /** The memory bundle handed to the editor: narrator, worldsim, character, in that order. */
  ghost function Bundle(R: seq<Option<string>>, n: nat): Logs
    requires Delivered(R, 4 * n + 1)
  {
    [("narrator", NarratorLog(R, n)), ("worldsim", WorldLog(R, n)), ("character", CharacterLog(R, n))]
  }

  lemma {:induction false} MemoryLengths(R: seq<Option<string>>, n: nat)
    requires Delivered(R, 4 * n + 1)
    ensures |NarratorLog(R, n)| == 1 + 2 * n
    ensures |WorldLog(R, n)| == n && |CharacterLog(R, n)| == n
  {
    if n > 0 {
      MemoryLengths(R, n - 1);
    }
  }

  lemma {:induction false} RequestsLength(c: Cast, humanInput: string, R: seq<Option<string>>, n: nat)
    requires Delivered(R, 4 * n)
    ensures |Requests(c, humanInput, R, n)| == 1 + 4 * n
  {
    if n > 0 {
      RequestsLength(c, humanInput, R, n - 1);
    }
  }


  /** The scene-setting call is the first call of the run and its text the first narrator entry. */
  lemma {:induction false} SceneSetFirst(c: Cast, humanInput: string, R: seq<Option<string>>, n: nat)
    requires Delivered(R, 4 * n + 1)
    ensures Requests(c, humanInput, R, n)[0] == Request(c.narrator, EditHumanInputPrompt(humanInput))
    ensures NarratorLog(R, n)[0] == Saved(R[0].value)
  {
    RequestsLength(c, humanInput, R, n);
    MemoryLengths(R, n);
    if n > 0 {
      SceneSetFirst(c, humanInput, R, n - 1);
      RequestsLength(c, humanInput, R, n - 1);
      MemoryLengths(R, n - 1);
    }
  }

  /** The requests of round k of n sit at positions 4k+1 .. 4k+4 of the request log, after the scene request. */
  lemma {:induction false} RequestsTrace(c: Cast, humanInput: string, R: seq<Option<string>>, n: nat, k: nat)
    requires Delivered(R, 4 * n + 1) && k < n
    ensures |Requests(c, humanInput, R, n)| == 1 + 4 * n
    ensures Requests(c, humanInput, R, n)[4 * k + 1..4 * k + 5] == RoundRequests(c, R, k)
  {
    RequestsLength(c, humanInput, R, n);
    RequestsLength(c, humanInput, R, n - 1);
    if k < n - 1 {
      RequestsTrace(c, humanInput, R, n - 1, k);
    }
  }

  /** What round k of n leaves in each memory: two narrator entries after the scene, one worldsim and one character entry. */
  lemma {:induction false} MemoriesTrace(R: seq<Option<string>>, n: nat, k: nat)
    requires Delivered(R, 4 * n + 1) && k < n
    ensures |NarratorLog(R, n)| == 1 + 2 * n
    ensures NarratorLog(R, n)[2 * k + 1] == Saved(R[4 * k + 2].value)
    ensures NarratorLog(R, n)[2 * k + 2] == Saved(R[4 * k + 4].value)
    ensures |WorldLog(R, n)| == n && WorldLog(R, n)[k] == Saved(R[4 * k + 1].value)
    ensures |CharacterLog(R, n)| == n && CharacterLog(R, n)[k] == Saved(R[4 * k + 3].value)
  {
    MemoryLengths(R, n);
    MemoryLengths(R, n - 1);
    if k < n - 1 {
      MemoriesTrace(R, n - 1, k);
    }
  }

  /** The character acts on the prompt the narrator has just produced in the same round, not on the round's starting prompt. */
  lemma CharacterActsOnEditedPrompt(c: Cast, humanInput: string, R: seq<Option<string>>, n: nat, k: nat)
    requires Delivered(R, 4 * n + 1) && k < n
    ensures |Requests(c, humanInput, R, n)| == 1 + 4 * n && |NarratorLog(R, n)| == 1 + 2 * n
    ensures Requests(c, humanInput, R, n)[4 * k + 2] == Request(c.narrator, EditSimulationOutputPrompt(R[4 * k + 1].value, R[4 * k].value))
    ensures Requests(c, humanInput, R, n)[4 * k + 3] == Request(c.character, DecideCharacterActionPrompt(R[4 * k + 2].value))
    ensures NarratorLog(R, n)[2 * k + 1] == Saved(R[4 * k + 2].value)
  {
    RequestsTrace(c, humanInput, R, n, k);
    MemoriesTrace(R, n, k);
    assert Requests(c, humanInput, R, n)[4 * k + 2] == RoundRequests(c, R, k)[1];
    assert Requests(c, humanInput, R, n)[4 * k + 3] == RoundRequests(c, R, k)[2];
  }

  /** Round n+1 extends the request log and each memory by what that round adds. */
  lemma RoundStep(c: Cast, humanInput: string, R: seq<Option<string>>, n: nat)
    requires Delivered(R, 4 * n + 5)
    ensures Requests(c, humanInput, R, n + 1) == Requests(c, humanInput, R, n) + RoundRequests(c, R, n)
    ensures NarratorLog(R, n + 1) == NarratorLog(R, n) + [Saved(R[4 * n + 2].value), Saved(R[4 * n + 4].value)]
    ensures WorldLog(R, n + 1) == WorldLog(R, n) + [Saved(R[4 * n + 1].value)]
    ensures CharacterLog(R, n + 1) == CharacterLog(R, n) + [Saved(R[4 * n + 3].value)]
  {
  }

  lemma AppendTwo<T>(s: seq<T>, x: T, y: T)
    ensures s + [x] + [y] == s + [x, y]
  {
  }

  /** The first half of an iteration: the world simulator answers the prompt, then the narrator edits its outcome. */
  method SimulateAndEdit(narrator: Narrator, worldsim: WorldSim, service: ChatService, prompt: string)
    returns (edited: Result<string>)
    requires narrator.role.service == service && worldsim.role.service == service
    requires narrator.role != worldsim.role
    modifies narrator.role, worldsim.role, service
    ensures edited.Ok? <==> ReplyAt(service.script, old(service.answered)).Some?
                            && ReplyAt(service.script, old(service.answered) + 1).Some?
    ensures edited.Ok? ==>
              && edited.value == service.script[old(service.answered) + 1].value
              && service.answered == old(service.answered) + 2
              && service.sent
                 == old(service.sent)
                    + [Request(worldsim.role.systemPrompt, SimulateWorldEventPrompt(prompt)),
                       Request(narrator.role.systemPrompt,
                               EditSimulationOutputPrompt(service.script[old(service.answered)].value, prompt))]
              && worldsim.role.memory == old(worldsim.role.memory) + [Saved(service.script[old(service.answered)].value)]
              && narrator.role.memory == old(narrator.role.memory) + [Saved(service.script[old(service.answered) + 1].value)]
    ensures edited.Err? && ReplyAt(service.script, old(service.answered)).None? ==> |service.sent| == |old(service.sent)| + 1
    ensures edited.Err? && ReplyAt(service.script, old(service.answered)).Some? ==> |service.sent| == |old(service.sent)| + 2
  {
    var simOut := worldsim.SimulateWorldEvent(prompt);
    if simOut.Err? {
      return simOut;
    }
    edited := narrator.EditSimulationOutput(simOut.value, prompt);
    if edited.Ok? {
      AppendTwo(old(service.sent), Request(worldsim.role.systemPrompt, SimulateWorldEventPrompt(prompt)),
                Request(narrator.role.systemPrompt, EditSimulationOutputPrompt(simOut.value, prompt)));
    }
  }

  /** The second half of an iteration: the character decides an action on the edited prompt, then the narrator narrates it. */
  method ActAndNarrate(narrator: Narrator, character: Character, service: ChatService, prompt: string)
    returns (narrated: Result<string>)
    requires narrator.role.service == service && character.role.service == service
    requires narrator.role != character.role
    modifies narrator.role, character.role, service
    ensures narrated.Ok? <==> ReplyAt(service.script, old(service.answered)).Some?
                              && ReplyAt(service.script, old(service.answered) + 1).Some?
    ensures narrated.Ok? ==>
              && narrated.value == service.script[old(service.answered) + 1].value
              && service.answered == old(service.answered) + 2
              && service.sent
                 == old(service.sent)
                    + [Request(character.role.systemPrompt, DecideCharacterActionPrompt(prompt)),
                       Request(narrator.role.systemPrompt,
                               NarrateActionPrompt(service.script[old(service.answered)].value, prompt))]
              && character.role.memory == old(character.role.memory) + [Saved(service.script[old(service.answered)].value)]
              && narrator.role.memory == old(narrator.role.memory) + [Saved(service.script[old(service.answered) + 1].value)]
    ensures narrated.Err? && ReplyAt(service.script, old(service.answered)).None? ==> |service.sent| == |old(service.sent)| + 1
    ensures narrated.Err? && ReplyAt(service.script, old(service.answered)).Some? ==> |service.sent| == |old(service.sent)| + 2
  {
    var action := character.DecideCharacterAction(prompt);
    if action.Err? {
      return action;
    }
    narrated := narrator.NarrateAction(action.value, prompt);
    if narrated.Ok? {
      AppendTwo(old(service.sent), Request(character.role.systemPrompt, DecideCharacterActionPrompt(prompt)),
                Request(narrator.role.systemPrompt, NarrateActionPrompt(action.value, prompt)));
    }
  }

  /** One iteration of the loop of main: WorldSim, Narrator, Character, Narrator, threading the prompt.
      It takes the state after r rounds to the state after r + 1 rounds. */
  method PlayRound(narrator: Narrator, worldsim: WorldSim, character: Character, service: ChatService,
                   prompt: string, ghost c: Cast, ghost humanInput: string, ghost r: nat)
    returns (next: Result<string>)
    requires narrator.role.service == service && worldsim.role.service == service
    requires character.role.service == service
    requires narrator.role != worldsim.role && narrator.role != character.role && worldsim.role != character.role
    requires c.narrator == narrator.role.systemPrompt && c.worldsim == worldsim.role.systemPrompt
    requires c.character == character.role.systemPrompt
    requires Delivered(service.script, 4 * r + 1) && service.answered == 4 * r + 1
    requires prompt == service.script[4 * r].value
    requires service.sent == Requests(c, humanInput, service.script, r)
    requires narrator.role.memory == NarratorLog(service.script, r)
    requires worldsim.role.memory == WorldLog(service.script, r)
    requires character.role.memory == CharacterLog(service.script, r)
    modifies narrator.role, worldsim.role, character.role, service
    ensures next.Ok? <==> Delivered(service.script, 4 * r + 5)
    ensures next.Ok? ==>
              && next.value == service.script[4 * r + 4].value
              && service.answered == 4 * r + 5
              && service.sent == Requests(c, humanInput, service.script, r + 1)
              && narrator.role.memory == NarratorLog(service.script, r + 1)
              && worldsim.role.memory == WorldLog(service.script, r + 1)
              && character.role.memory == CharacterLog(service.script, r + 1)
    ensures next.Err? ==> |service.sent| == FirstMissing(service.script, 4 * r + 5) + 1
  {
    ghost var R := service.script;
    RequestsLength(c, humanInput, R, r);
    var edited := SimulateAndEdit(narrator, worldsim, service, prompt);
    if edited.Err? {
      PairFailure(R, 4 * r + 1, 4 * r + 5);
      return edited;
    }
    next := ActAndNarrate(narrator, character, service, edited.value);
    if next.Err? {
      PairFailure(R, 4 * r + 3, 4 * r + 5);
      return next;
    }
    assert Delivered(R, 4 * r + 5);
    RoundStep(c, humanInput, R, r);
    assert service.sent == old(service.sent) + RoundRequests(c, R, r);
    assert narrator.role.memory == old(narrator.role.memory) + [Saved(R[4 * r + 2].value), Saved(R[4 * r + 4].value)];
  }

  /** The scene-setting call and the loop of main on a service no request has reached yet: the
      narrator sets the scene, then each round threads the prompt through WorldSim, Narrator,
      Character, Narrator. */
  method PlayStory(narrator: Narrator, worldsim: WorldSim, character: Character, service: ChatService,
                   humanInput: string, rounds: nat, ghost c: Cast)
    returns (last: Result<string>)
    requires narrator.role.service == service && worldsim.role.service == service
    requires character.role.service == service
    requires narrator.role != worldsim.role && narrator.role != character.role && worldsim.role != character.role
    requires c.narrator == narrator.role.systemPrompt && c.worldsim == worldsim.role.systemPrompt
    requires c.character == character.role.systemPrompt
    requires service.answered == 0 && service.sent == []
    requires narrator.role.memory == [] && worldsim.role.memory == [] && character.role.memory == []
    modifies narrator.role, worldsim.role, character.role, service
    ensures last.Ok? <==> Delivered(service.script, 4 * rounds + 1)
    ensures last.Ok? ==>
              && last.value == service.script[4 * rounds].value
              && service.answered == 4 * rounds + 1
              && service.sent == Requests(c, humanInput, service.script, rounds)
              && narrator.role.memory == NarratorLog(service.script, rounds)
              && worldsim.role.memory == WorldLog(service.script, rounds)
              && character.role.memory == CharacterLog(service.script, rounds)
    ensures last.Err? ==> |service.sent| == FirstMissing(service.script, 4 * rounds + 1) + 1
  {
    ghost var R := service.script;
    last := narrator.EditHumanInput(humanInput);
    if last.Err? {
      FirstMissingIs(R, 0, 4 * rounds + 1);
      return;
    }
    var i := 0;
    while i < rounds
      invariant 0 <= i <= rounds
      invariant last.Ok? && Delivered(R, 4 * i + 1) && service.answered == 4 * i + 1
      invariant last.value == R[4 * i].value
      invariant service.sent == Requests(c, humanInput, R, i)
      invariant narrator.role.memory == NarratorLog(R, i)
      invariant worldsim.role.memory == WorldLog(R, i)
      invariant character.role.memory == CharacterLog(R, i)
    {
      var next := PlayRound(narrator, worldsim, character, service, last.value, c, humanInput, i);
      if next.Err? {
        FirstMissingExtend(R, 4 * i + 5, 4 * rounds + 1);
        return next;
      }
      last := next;
      i := i + 1;
    }
  }

  /** The end of main: the three memories, copied, are bundled and compiled by the editor without saving. */
  method CompileMemories(narrator: Narrator, worldsim: WorldSim, character: Character, editor: Editor)
    returns (story: Result<string>)
    modifies editor.role, editor.role.service
    ensures editor.role.service.sent
            == old(editor.role.service.sent)
               + [Request(editor.role.systemPrompt,
                          StoryMaterial([("narrator", old(narrator.role.memory)), ("worldsim", old(worldsim.role.memory)),
                                         ("character", old(character.role.memory))]))]
    ensures editor.role.service.answered == old(editor.role.service.answered) + 1
    ensures story == Checked(ReplyAt(editor.role.service.script, old(editor.role.service.answered)))
    ensures editor.role.memory == old(editor.role.memory)
  {
    var narratorMemory := narrator.role.GetMemory();
    var worldsimMemory := worldsim.role.GetMemory();
    var characterMemory := character.role.GetMemory();
    var memoryBundle := [("narrator", narratorMemory[..]), ("worldsim", worldsimMemory[..]),
                         ("character", characterMemory[..])];
    story := editor.CompileStoryFromLogs(memoryBundle);
  }

  /** main after the roles are built: four roles with empty memories on one service no request has reached yet. */
  method Run(narrator: Narrator, worldsim: WorldSim, character: Character, editor: Editor,
             service: ChatService, humanInput: string, maxIterations: int)
    returns (story: Result<string>)
    requires narrator.role.service == service && worldsim.role.service == service
    requires character.role.service == service && editor.role.service == service
    requires narrator.role != worldsim.role && narrator.role != character.role && narrator.role != editor.role
    requires worldsim.role != character.role && worldsim.role != editor.role && character.role != editor.role
    requires service.answered == 0 && service.sent == []
    requires narrator.role.memory == [] && worldsim.role.memory == []
    requires character.role.memory == [] && editor.role.memory == []
    modifies narrator.role, worldsim.role, character.role, editor.role, service
    ensures story.Ok? <==> Delivered(service.script, 4 * Rounds(maxIterations) + 2)
    ensures story.Ok? ==> story.value == service.script[4 * Rounds(maxIterations) + 1].value
    ensures story.Ok? ==>
              && narrator.role.memory == NarratorLog(service.script, Rounds(maxIterations))
              && worldsim.role.memory == WorldLog(service.script, Rounds(maxIterations))
              && character.role.memory == CharacterLog(service.script, Rounds(maxIterations))
    ensures story.Ok? ==>
              service.sent == Requests(Cast(narrator.role.systemPrompt, worldsim.role.systemPrompt,
                                            character.role.systemPrompt, editor.role.systemPrompt),
                                       humanInput, service.script, Rounds(maxIterations))
                              + [Request(editor.role.systemPrompt,
                                         StoryMaterial(Bundle(service.script, Rounds(maxIterations))))]
    ensures story.Ok? ==> |service.sent| == 4 * Rounds(maxIterations) + 2
    ensures story.Err? ==> |service.sent| == FirstMissing(service.script, 4 * Rounds(maxIterations) + 2) + 1
    ensures editor.role.memory == []
  {
    ghost var c := Cast(narrator.role.systemPrompt, worldsim.role.systemPrompt,
                        character.role.systemPrompt, editor.role.systemPrompt);
    var rounds := Rounds(maxIterations);

    story := PlayStory(narrator, worldsim, character, service, humanInput, rounds, c);
    if story.Err? {
      FirstMissingExtend(service.script, 4 * rounds + 1, 4 * rounds + 2);
      return;
    }
    RequestsLength(c, humanInput, service.script, rounds);
    story := CompileMemories(narrator, worldsim, character, editor);
    if story.Err? {
      FirstMissingIs(service.script, 4 * rounds + 1, 4 * rounds + 2);
    }
  }

  /** main: creates the service and the four roles on it, then plays and compiles the story.
      The service is returned so that the requests of the run can be stated. */
  method WeaveStory(humanInput: string, maxIterations: int, characterPrompt: string, script: seq<Option<string>>)
    returns (story: Result<string>, service: ChatService)
    ensures fresh(service) && service.script == script
    ensures story.Ok? <==> Delivered(script, 4 * Rounds(maxIterations) + 2)
    ensures story.Ok? ==> story.value == script[4 * Rounds(maxIterations) + 1].value
    ensures story.Ok? ==>
              service.sent == Requests(DefaultCast(characterPrompt), humanInput, script, Rounds(maxIterations))
                              + [Request(EditorRole.DefaultSystemPrompt, StoryMaterial(Bundle(script, Rounds(maxIterations))))]
    ensures story.Ok? ==> |service.sent| == 4 * Rounds(maxIterations) + 2
    ensures story.Err? ==> |service.sent| == FirstMissing(script, 4 * Rounds(maxIterations) + 2) + 1
  {
    service := new ChatService(script);
    var narrator := new Narrator(NarratorRole.DefaultSystemPrompt, service);
    var worldsim := new WorldSim(WorldSimRole.DefaultSystemPrompt, service);
    var character := new Character(characterPrompt, service);
    var editor := new Editor(EditorRole.DefaultSystemPrompt, service);
    story := Run(narrator, worldsim, character, editor, service, humanInput, maxIterations);
  }
}
