# weaver — a Dafny model of the story-weaving core

weaver tells a story by letting four language-model "roles" talk to one
chat-completion service in turn:

- a **narrator** sets the scene from a human's idea;
- then for a fixed number of rounds:
  - a **world simulator** says what happens next;
  - the narrator edits that outcome;
  - a single **character** decides an action;
  - the narrator narrates the action;
- an **editor** then compiles the memories of narrator, world simulator and
  character into the final story.

This project models that core and proves what it does:

- `chat.dfy` (module `Chat`): the chat-completion service, as a scripted stub.
  - A `ChatService` hands out the replies of a fixed script, one per request and in order.
  - It counts the requests it has answered and logs each one.
  - A `None` reply stands for the service returning no text. An exhausted script answers `None` too.
- `base.dfy` (module `Base`): `BaseRole` as the class `Role`.
  - It holds the stored system prompt and the memory log.
  - `Generate` picks the system message, calls the service, fails on `None` and appends the tagged output.
  - `GetMemory` and `ClearMemory` are also here.
- `templates.dfy` (module `Templates`): the two shapes of the prompt f-strings.
  - One quoted hole, or two quoted holes with text between them.
  - Each comes with a parser that recovers the holes, which shows the template loses nothing.
- `narrator.dfy`, `worldsim.dfy`, `character.dfy`: the three prompt-template roles.
  - Each one is a class around a `Role`, because the source subclasses `BaseRole`.
  - Each template wraps one saving `Generate`.
- `editor.dfy` (module `EditorRole`): `compile_story_from_logs`.
  - The story material is specified by recursive functions. The nested loops of the source build it in `BuildMaterial`.
  - Lemmas cover: the preamble comes first; role blocks appear in mapping order; entries appear in memory order.
  - The compile call does not save to the editor's memory.
- `weave.dfy` (module `Weave`): `main`.
  - The run is stated against the script `R` of replies. `R[0]` answers the scene-setting call, `R[4r+1]..R[4r+4]` answer round `r`, and `R[4n+1]` answers the compile.
  - Ghost functions give the expected request log and the three memory logs after `n` rounds.
  - The loop is proved to produce exactly these logs.
  - On a missing reply, the calls made are exactly those up to and including the first failing one. `FirstMissing` gives the position of that call. When it comes before the compile, the compile is never sent.
  - Memory lengths are narrator 1+2n, world simulator n, character n and editor 0.

## Model

| member | source | states |
|---|---|---|
| Chat.ChatService.constructor | roles/base.py:23 | a new client has answered no request and logged none |
| Chat.ChatService.Complete | roles/base.py:85-89 | one round trip logs the request and returns the next reply of the script, or no text once the script is exhausted |
| Base.Role.constructor | roles/base.py:13-30 | a new role keeps the given name and system prompt and starts with an empty memory |
| Base.SystemMessage | roles/base.py:77-83 | a truthy override is the system message; `None` or the empty string falls back to the stored prompt |
| Base.Role.Generate | roles/base.py:55-111 | sends exactly [system, user]; on no text it fails and memory is unchanged; otherwise it returns the text unchanged and appends exactly one `Generated Output: ` entry when saving, and leaves memory alone when not |
| Base.Unsaved | roles/base.py:97-102 | stripping the output tag from an entry yields a text that tags back to that entry |
| Base.UnsavedSaved | roles/base.py:97-102 | every saved entry starts with `Generated Output: ` and stripping it gives back the generated text |
| Base.Role.GetMemory | roles/base.py:113-120 | returns a new list equal to the memory; the role's memory is not reachable through it |
| Base.Role.ClearMemory | roles/base.py:122-128 | the memory is empty afterwards; the system prompt is not re-added |
| Templates.Unquote | roles/worldsim.py:20 | a recovered hole quoted behind the lead gives back the prompt it came from |
| Templates.UnquoteQuote | roles/worldsim.py:20 | a one-hole template is parsed back to exactly the text put in it |
| Templates.Unfill2 | roles/narrator.py:29 | recovered holes have the requested length and refill to the prompt they came from |
| Templates.UnfillFill2 | roles/narrator.py:29 | a two-hole template is parsed back to exactly its two texts, in order |
| NarratorRole.EditHumanInputPromptQuotes | roles/narrator.py:21 | the scene prompt is the fixed lead followed by the human input in single quotes |
| NarratorRole.EditSimulationOutputPromptHoles | roles/narrator.py:29 | the outcome prompt embeds the simulation output first and the context prompt second |
| NarratorRole.NarrateActionPromptHoles | roles/narrator.py:37 | the action prompt embeds the action first and the ongoing prompt second |
| NarratorRole.Narrator.constructor | roles/narrator.py:10-14 | the role is named `narrator`, has the given system prompt and an empty memory |
| NarratorRole.Narrator.EditHumanInput | roles/narrator.py:16-22 | sends the scene prompt with the stored system prompt, returns the reply unchanged and adds exactly one entry on success |
| NarratorRole.Narrator.EditSimulationOutput | roles/narrator.py:24-30 | sends the outcome prompt, returns the reply unchanged and adds exactly one entry on success |
| NarratorRole.Narrator.NarrateAction | roles/narrator.py:32-38 | sends the action prompt, returns the reply unchanged and adds exactly one entry on success |
| WorldSimRole.SimulateWorldEventPromptQuotes | roles/worldsim.py:20 | the prompt is the fixed lead followed by the situation in single quotes |
| WorldSimRole.WorldSim.constructor | roles/worldsim.py:9-13 | the role is named `worldsim`, has the given system prompt and an empty memory |
| WorldSimRole.WorldSim.SimulateWorldEvent | roles/worldsim.py:15-21 | sends the situation prompt, returns the reply unchanged and adds exactly one entry on success |
| CharacterRole.DecideCharacterActionPromptQuotes | roles/character.py:22 | the prompt is the fixed lead followed by the situation in single quotes |
| CharacterRole.Character.constructor | roles/character.py:10-15 | the role is named `character`, has the given system prompt and an empty memory |
| CharacterRole.Character.DecideCharacterAction | roles/character.py:17-23 | sends the situation prompt, returns the reply unchanged and adds exactly one entry on success |
| EditorRole.Editor.constructor | roles/editor.py:11-15 | the role is named `editor`, has the given system prompt and an empty memory |
| EditorRole.BuildMaterial | roles/editor.py:23-28 | the nested loops build exactly the story material: preamble, then per role a header, the entries each followed by a newline, and a footer |
| EditorRole.EntriesAppend | roles/editor.py:26-27 | the entries of two log parts are the entries of each part, one after the other |
| EditorRole.EntriesAt | roles/editor.py:26-27 | entries keep memory order: entry k sits between the earlier and the later entries |
| EditorRole.BlocksAppend | roles/editor.py:24-28 | the blocks of two mapping parts are the blocks of each part, one after the other |
| EditorRole.BlocksAt | roles/editor.py:24-28 | blocks keep mapping order: role k's block sits between the earlier and the later blocks |
| EditorRole.BlockOrder | roles/editor.py:24-28 | an earlier role's block occurs in the material and ends before a later role's block starts |
| EditorRole.MaterialStartsWithPreamble | roles/editor.py:23 | the material always begins with the fixed preamble |
| EditorRole.MaterialOfNoLogs | roles/editor.py:23-28 | for an empty mapping the material is exactly the preamble |
| EditorRole.HeaderOpensBlock | roles/editor.py:25 | each block opens with `--- Log from NAME ---` for the upper-cased role name |
| EditorRole.NarratorBlockBeforeWorldSim | roles/editor.py:24-25 | for a mapping narrator then worldsim, `--- Log from NARRATOR ---` occurs before `--- Log from WORLDSIM ---` |
| EditorRole.Editor.CompileStoryFromLogs | roles/editor.py:17-31 | sends the story material with the editor's prompt, returns the reply unchanged and leaves the editor's memory as it was |
| Weave.MemoryLengths | weave.py:27-38 | after n rounds the narrator's log has 1+2n entries and the world simulator's and character's n each |
| Weave.RequestsLength | weave.py:27-38 | after n rounds 1+4n requests have been sent |
| Weave.SceneSetFirst | weave.py:27 | the scene-setting request is the first request, and its reply is the first narrator entry |
| Weave.RequestsTrace | weave.py:28-38 | the requests of round k are the four requests at positions 4k+1..4k+4, in the order worldsim, narrator, character, narrator |
| Weave.MemoriesTrace | weave.py:28-38 | round k leaves two narrator entries, one worldsim entry and one character entry, in call order |
| Weave.CharacterActsOnEditedPrompt | weave.py:33-36 | the character is asked about the narrator's edited prompt of the same round, not the round's starting prompt |
| Weave.FirstMissingSpec | weave.py:26-46 | the call at which the run stops is the first among the first k whose reply is not a text: all replies before it are texts, and it is k exactly when all k were delivered |
| Weave.SimulateAndEdit | weave.py:31-33 | the world simulator answers the prompt and the narrator edits its outcome; it succeeds exactly when both replies are texts; on failure it has sent one request if the first reply is missing and two otherwise |
| Weave.ActAndNarrate | weave.py:36-38 | the character acts on the edited prompt and the narrator narrates the action; it succeeds exactly when both replies are texts; on failure it has sent one request if the first reply is missing and two otherwise |
| Weave.PlayRound | weave.py:29-38 | one iteration takes the request log and memories after r rounds to those after r+1 rounds and threads the prompt; it succeeds exactly when the round's four replies are texts; on failure the requests sent are exactly those up to and including the first missing reply |
| Weave.PlayStory | weave.py:27-38 | one scene-setting call, then exactly the given number of rounds; success exactly when every reply so far is a text; on failure the requests sent are exactly those up to and including the first missing reply |
| Weave.CompileMemories | weave.py:41-46 | the editor receives the material of the narrator, worldsim and character memories, in that order; the editor's memory stays empty |
| Weave.Run | weave.py:26-46 | the run succeeds exactly when the first 4n+2 replies are texts; it then returns the compile's reply and has sent exactly 4n+2 requests, the scene-setting and round requests followed by the compile of the three logs; on failure the requests sent are exactly those up to and including the first missing reply, so a failure before the compile sends no compile request |
| Weave.WeaveStory | weave.py:10-46 | as Weave.Run, for roles built with their default system prompts on one new service; a negative iteration count runs no rounds |

## Left out

- The Groq client and the network call (roles/base.py:6, 23, 85-87) are a foreign service. They are replaced by a scripted stub that returns `Option<string>`.
- The model name and the generation keyword arguments are left out. Their float values (temperature, top_p) are opaque to the core (weave.py:14-20).
- Reading `groqkey.api` and `system_prompts/{role}.txt` (roles/base.py:21-22, 28) is file I/O. Each role's system prompt is a constructor parameter instead.
  - Narrator, world simulator and editor use the defaults of their subclasses.
  - The character has no default string in the source, so `WeaveStory` takes its prompt as a parameter.
- Log directories, timestamps, `_log_to_file` and every `logging` call (roles/base.py:32-53, 73-75, 93-95, 104-109, 128) are file and clock effects that only observe.
- The command line, the stdin prompt and the `print` progress lines (weave.py:11, 26-40, 55-69) are I/O.
- Writing the story to `stories/story.txt` (weave.py:48-52) is file I/O. `utils.py` is not part of this model, and neither are `setup.py` and `roles/__init__.py`.
- EditorRole.Upper: `str.upper()` is modelled as ASCII upper-casing. Role names outside ASCII are not covered.
- Base.Role.GetMemory: the returned copy is a new array. The role's memory is a value, so a caller cannot reach it through the copy.
- The roles are modelled by composition (a class holding a `Role`) rather than by subclassing, because the model has no inheritance.
- The error that `generate` raises is modelled as an `Err` result that every caller passes straight up. No caller in the source catches it.
- The source's mismatched names and signatures are modelled as evidently intended:
  - `BaseRole.__init__` (roles/base.py:13) takes `role`, a required `llm` and `groq_kwargs`, and no `system_prompt`.
  - Narrator, WorldSim and Editor (roles/narrator.py:14, roles/worldsim.py:13, roles/editor.py:15) pass `system_prompt` and omit the required `llm`.
  - Character (roles/character.py:15) passes `pipeline_kwargs`, which `BaseRole.__init__` does not accept.
  - weave.py:21-24 passes `groq_kwargs` to the four subclass constructors, and none of them accepts it.
  - The templates call `generate` positionally (for example roles/narrator.py:22), but roles/base.py:57 makes `user_prompt` keyword-only.
  - weave.py:36 calls `decide_action`, but roles/character.py:17 defines `decide_character_action`.
  - weave.py:46 calls `compile_story`, but roles/editor.py:17 defines `compile_story_from_logs`.
  - As written, `main` raises a `TypeError` at weave.py:21, before any chat call. Each constructor or `generate` mismatch raises a `TypeError` before a chat call. The two misnamed methods would each raise an `AttributeError`, and only after earlier chat calls.
- The docstring of `clear_memory` (roles/base.py:125) says the system prompt is re-added. The code only empties the list, and the model follows the code.
- `max_iterations` is not checked by the source. `range` over a negative count is empty, so a negative count gives zero rounds (`Weave.Rounds`).
- The source supports a single protagonist, and so does the model: there is one character and one template.
- Each role builds its own Groq client in the source. The model lets all roles share one service, so that the order of every request is visible in one log. The Groq client keeps no state between requests, since every request carries its whole conversation. So sharing one service changes no role's behaviour. The stub's answer counter and request log are only there to observe the order of requests.
