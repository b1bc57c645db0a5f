// The editor (roles/editor.py): it serialises the memory logs of the other
// roles into one block of story material and sends it in a single call whose
// result is not saved to the editor's own memory.
module EditorRole {
  import opened Chat
  import opened Base

  const Name := "editor"
  const DefaultSystemPrompt := "You are a meticulous editor. Combine all provided logs and narratives into a single, polished, and coherent story."

  const Preamble := "Combine the following perspectives and events into a cohesive narrative story:\n\n"

  /** The logs to compile, in mapping order: each role name with its memory. */
  type Logs = seq<(string, seq<string>)>

  /** ASCII upper-casing of one character. */
  function UpperChar(c: char): char
  {
    if 'a' <= c <= 'z' then (c as int - 32) as char else c
  }

  /** ASCII upper-casing of a string, character by character. */
  function Upper(s: string): string
  {
    seq(|s|, i requires 0 <= i < |s| => UpperChar(s[i]))
  }

  function Header(name: string): string
  {
    "--- Log from " + Upper(name) + " ---\n"
  }

  function Footer(name: string): string
  {
    "--- End of " + Upper(name) + " Log ---\n\n"
  }

  /** Every entry of a memory log followed by a newline, in log order. */
  function Entries(log: seq<string>): string
  {
    if log == [] then "" else Entries(log[..|log| - 1]) + log[|log| - 1] + "\n"
  }

  function Block(name: string, log: seq<string>): string
  {
    Header(name) + Entries(log) + Footer(name)
  }

  /** The blocks of all roles, in mapping order. */
  function Blocks(logs: Logs): string
  {
    if logs == [] then "" else Blocks(logs[..|logs| - 1]) + Block(logs[|logs| - 1].0, logs[|logs| - 1].1)
  }

  /** The material sent to the editor's generate. */
  function StoryMaterial(logs: Logs): string
  {
    Preamble + Blocks(logs)
  }

  lemma AppendAssoc<T>(x: seq<T>, y: seq<T>, z: seq<T>)
    ensures x + y + z == x + (y + z)
  {
  }

  lemma {:induction false} EntriesAppend(a: seq<string>, b: seq<string>)
    ensures Entries(a + b) == Entries(a) + Entries(b)
    decreases |b|
  {
    if b == [] {
      assert a + b == a;
    } else {
      var b' := b[..|b| - 1];
      var last := b[|b| - 1];
      assert (a + b)[..|a + b| - 1] == a + b';
      calc {
        Entries(a + b);
        Entries(a + b') + last + "\n";
        { EntriesAppend(a, b'); }
        Entries(a) + Entries(b') + last + "\n";
        { AppendAssoc(Entries(a), Entries(b'), last + "\n"); }
        Entries(a) + Entries(b);
      }
    }
  }

  /** Entries appear in log order: the k-th entry sits between the earlier and the later ones. */
  lemma {:induction false} EntriesAt(log: seq<string>, k: nat)
    requires k < |log|
    ensures Entries(log) == Entries(log[..k]) + log[k] + "\n" + Entries(log[k + 1..])
  {
    assert log == log[..k] + [log[k]] + log[k + 1..];
    EntriesAppend(log[..k] + [log[k]], log[k + 1..]);
    EntriesAppend(log[..k], [log[k]]);
    assert Entries([log[k]]) == log[k] + "\n" by {
      assert [log[k]][..0] == [];
    }
  }

  lemma {:induction false} BlocksAppend(a: Logs, b: Logs)
    ensures Blocks(a + b) == Blocks(a) + Blocks(b)
    decreases |b|
  {
    if b == [] {
      assert a + b == a;
    } else {
      var b' := b[..|b| - 1];
      var last := b[|b| - 1];
      assert (a + b)[..|a + b| - 1] == a + b';
      calc {
        Blocks(a + b);
        Blocks(a + b') + Block(last.0, last.1);
        { BlocksAppend(a, b'); }
        Blocks(a) + Blocks(b') + Block(last.0, last.1);
        { AppendAssoc(Blocks(a), Blocks(b'), Block(last.0, last.1)); }
        Blocks(a) + Blocks(b);
      }
    }
  }

  /** Blocks appear in mapping order: the k-th role's block sits between the earlier and the later ones. */
  lemma {:induction false} BlocksAt(logs: Logs, k: nat)
    requires k < |logs|
    ensures Blocks(logs) == Blocks(logs[..k]) + Block(logs[k].0, logs[k].1) + Blocks(logs[k + 1..])
  {
    assert logs == logs[..k] + [logs[k]] + logs[k + 1..];
    BlocksAppend(logs[..k] + [logs[k]], logs[k + 1..]);
    BlocksAppend(logs[..k], [logs[k]]);
    assert Blocks([logs[k]]) == Block(logs[k].0, logs[k].1) by {
      assert [logs[k]][..0] == [];
    }
  }

  lemma MaterialStartsWithPreamble(logs: Logs)
    ensures |Preamble| <= |StoryMaterial(logs)|
    ensures StoryMaterial(logs)[..|Preamble|] == Preamble
  {
  }

  lemma MaterialOfNoLogs()
    ensures StoryMaterial([]) == Preamble
  {
  }

  /** s holds sub starting at position at. */
  predicate Occurs(sub: string, s: string, at: nat)
  {
    at + |sub| <= |s| && s[at..at + |sub|] == sub
  }

  /** Occurrence is transitive: sub inside s inside t. */
  lemma OccursWithin(sub: string, s: string, t: string, outer: nat, inner: nat)
    requires Occurs(s, t, outer) && Occurs(sub, s, inner)
    ensures Occurs(sub, t, outer + inner)
  {
    forall k | 0 <= k < |sub|
      ensures t[outer + inner + k] == sub[k]
    {
      assert sub[k] == s[inner + k];
      assert s[inner + k] == t[outer..outer + |s|][inner + k];
    }
  }

  /** The middle part of a concatenation occurs right after the first part. */
  lemma OccursInConcat(a: string, b: string, c: string)
    ensures Occurs(b, a + b + c, |a|)
  {
    assert (a + b + c)[|a|..|a| + |b|] == b;
  }

  lemma Regroup(a: string, b: string, c: string, d: string)
    ensures a + (b + c + d) == a + b + c + d == a + b + (c + d)
  {
  }

  /** The k-th role's block sits in the material right after the blocks of the roles before it. */
  lemma BlockPosition(logs: Logs, k: nat)
    requires k < |logs|
    ensures Occurs(Block(logs[k].0, logs[k].1), StoryMaterial(logs), |Preamble| + |Blocks(logs[..k])|)
  {
    var bk := Block(logs[k].0, logs[k].1);
    BlocksAt(logs, k);
    Regroup(Preamble, Blocks(logs[..k]), bk, Blocks(logs[k + 1..]));
    OccursInConcat(Preamble + Blocks(logs[..k]), bk, Blocks(logs[k + 1..]));
  }

  /** Role blocks appear in mapping order: the block of an earlier role ends before that of a later one starts. */
  lemma BlockOrder(logs: Logs, i: nat, j: nat)
    requires i < j < |logs|
    ensures |Preamble| + |Blocks(logs[..i])| + |Block(logs[i].0, logs[i].1)| <= |Preamble| + |Blocks(logs[..j])|
    ensures Occurs(Block(logs[i].0, logs[i].1), StoryMaterial(logs), |Preamble| + |Blocks(logs[..i])|)
    ensures Occurs(Block(logs[j].0, logs[j].1), StoryMaterial(logs), |Preamble| + |Blocks(logs[..j])|)
  {
    BlockPosition(logs, i);
    BlockPosition(logs, j);
    var front := logs[..j];
    BlocksAt(front, i);
    assert front[..i] == logs[..i] && front[i] == logs[i];
  }

  /** For a mapping {"narrator": ..., "worldsim": ...} the NARRATOR header comes before the WORLDSIM header,
      whatever the two logs hold (for instance ["a"] and ["b"]). */
  lemma NarratorBlockBeforeWorldSim(narratorLog: seq<string>, worldsimLog: seq<string>)
    ensures exists p: nat, q: nat ::
              && p < q
              && Occurs("--- Log from NARRATOR ---", StoryMaterial([("narrator", narratorLog), ("worldsim", worldsimLog)]), p)
              && Occurs("--- Log from WORLDSIM ---", StoryMaterial([("narrator", narratorLog), ("worldsim", worldsimLog)]), q)
  {
    var logs: Logs := [("narrator", narratorLog), ("worldsim", worldsimLog)];
    BlockOrder(logs, 0, 1);
    var p := |Preamble| + |Blocks(logs[..0])|;
    var q := |Preamble| + |Blocks(logs[..1])|;
    HeaderLines();
    HeaderOpensBlock("narrator", narratorLog, "--- Log from NARRATOR ---");
    HeaderOpensBlock("worldsim", worldsimLog, "--- Log from WORLDSIM ---");
    OccursWithin("--- Log from NARRATOR ---", Block("narrator", narratorLog), StoryMaterial(logs), p, 0);
    OccursWithin("--- Log from WORLDSIM ---", Block("worldsim", worldsimLog), StoryMaterial(logs), q, 0);
  }

  lemma HeaderLines()
    ensures "--- Log from " + Upper("narrator") + " ---" == "--- Log from NARRATOR ---"
    ensures "--- Log from " + Upper("worldsim") + " ---" == "--- Log from WORLDSIM ---"
  {
    assert Upper("narrator") == "NARRATOR";
    assert Upper("worldsim") == "WORLDSIM";
  }

  /** A block opens with the header line naming its role in upper case. */
  lemma HeaderOpensBlock(name: string, log: seq<string>, line: string)
    requires line == "--- Log from " + Upper(name) + " ---"
    ensures Occurs(line, Block(name, log), 0)
  {
    assert Header(name) == line + "\n";
    assert Block(name, log)[..|line|] == line;
  }

  /** Appending one more entry line extends the entries of the log prefix by one. */
  lemma EntriesPrefixStep(built: string, log: seq<string>, j: nat)
    requires j < |log|
    ensures built + Entries(log[..j]) + log[j] + "\n" == built + Entries(log[..j + 1])
  {
    assert log[..j + 1][..j] == log[..j];
  }

  /** Appending the header, entries and footer of the next role extends the blocks of the mapping prefix by one. */
  lemma BlocksPrefixStep(logs: Logs, i: nat)
    requires i < |logs|
    ensures Preamble + Blocks(logs[..i]) + Header(logs[i].0) + Entries(logs[i].1) + Footer(logs[i].0)
            == Preamble + Blocks(logs[..i + 1])
  {
    assert logs[..i + 1][..i] == logs[..i];
  }

  /** Builds the story material with the source's nested loops. */
  method BuildMaterial(allMemories: Logs) returns (material: string)
    ensures material == StoryMaterial(allMemories)
  {
    material := Preamble;
    var i := 0;
    while i < |allMemories|
      invariant 0 <= i <= |allMemories|
      invariant material == Preamble + Blocks(allMemories[..i])
    {
      var roleName, memoryLog := allMemories[i].0, allMemories[i].1;
      material := material + Header(roleName);
      ghost var started := material;
      var j := 0;
      while j < |memoryLog|
        invariant 0 <= j <= |memoryLog|
        invariant material == started + Entries(memoryLog[..j])
      {
        EntriesPrefixStep(started, memoryLog, j);
        material := material + memoryLog[j] + "\n";
        j := j + 1;
      }
      assert memoryLog[..j] == memoryLog;
      material := material + Footer(roleName);
      BlocksPrefixStep(allMemories, i);
      i := i + 1;
    }
    assert allMemories[..i] == allMemories;
  }

  class Editor {
    const role: Role

    constructor (systemPrompt: string, service: ChatService)
      ensures fresh(role)
      ensures role.name == Name && role.systemPrompt == systemPrompt && role.service == service
      ensures role.memory == []
    {
      role := new Role(Name, systemPrompt, service);
    }

    /** Sends the story material in one call; the editor's memory is left as it was. */
    method CompileStoryFromLogs(allMemories: Logs) returns (r: Result<string>)
      modifies role, role.service
      ensures role.service.sent == old(role.service.sent) + [Request(role.systemPrompt, StoryMaterial(allMemories))]
      ensures role.service.answered == old(role.service.answered) + 1
      ensures r == Checked(ReplyAt(role.service.script, old(role.service.answered)))
      ensures role.memory == old(role.memory)
    {
      var material := BuildMaterial(allMemories);
      r := role.Generate(material, None, false);
    }
  }
}
