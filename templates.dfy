// Prompt templates with one or two quoted holes, and the readers that take
// the holes back out of a filled template.
module Templates {
  import opened Chat

  /** A template with one hole: the lead, then the body, then a closing quote. */
  function Quote(lead: string, body: string): string
  {
    lead + body + "'"
  }

  /** The body of a one-hole template, if the prompt has that template's shape. */
  function Unquote(lead: string, prompt: string): (body: Option<string>)
    ensures body.Some? ==> Quote(lead, body.value) == prompt
  {
    if |lead| + 1 <= |prompt| && prompt[..|lead|] == lead && prompt[|prompt| - 1] == '\''
    then
      var body := prompt[|lead|..|prompt| - 1];
      assert prompt == prompt[..|lead|] + body + [prompt[|prompt| - 1]];
      Some(body)
    else None
  }

  lemma UnquoteQuote(lead: string, body: string)
    ensures Unquote(lead, Quote(lead, body)) == Some(body)
  {
    var p := Quote(lead, body);
    assert p[..|lead|] == lead;
    assert p[|lead|..|p| - 1] == body;
  }

  /** A template with two holes: lead, first hole, middle text, second hole, tail. */
  function Fill2(lead: string, first: string, mid: string, second: string, tail: string): string
  {
    lead + first + mid + second + tail
  }

  /** The two holes of a two-hole template, given the length of the first. */
  function Unfill2(lead: string, mid: string, tail: string, firstLength: nat, prompt: string)
    : (holes: Option<(string, string)>)
    ensures holes.Some? ==> |holes.value.0| == firstLength
    ensures holes.Some? ==> Fill2(lead, holes.value.0, mid, holes.value.1, tail) == prompt
  {
    var a := |lead|;
    var b := a + firstLength;
    var c := b + |mid|;
    if c + |tail| <= |prompt| && prompt[..a] == lead && prompt[b..c] == mid
       && prompt[|prompt| - |tail|..] == tail
    then
      var first, second := prompt[a..b], prompt[c..|prompt| - |tail|];
      assert prompt == prompt[..a] + first + prompt[b..c] + second + prompt[|prompt| - |tail|..];
      Some((first, second))
    else None
  }

  lemma UnfillFill2(lead: string, first: string, mid: string, second: string, tail: string)
    ensures Unfill2(lead, mid, tail, |first|, Fill2(lead, first, mid, second, tail)) == Some((first, second))
  {
    var p := Fill2(lead, first, mid, second, tail);
    var a := |lead|;
    var b := a + |first|;
    var c := b + |mid|;
    assert p[..a] == lead;
    assert p[a..b] == first;
    assert p[b..c] == mid;
    assert p[c..|p| - |tail|] == second;
    assert p[|p| - |tail|..] == tail;
  }
}
