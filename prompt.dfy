/**
 * Synthesis prompts: a header followed by one section per panel role,
 * in panel order, each `role + ": " + output + "\n\n"`.
 */
module Prompt {

  /** One role's entry in a synthesis prompt. */
  function Section(role: string, output: string): string {
    role + ": " + output + "\n\n"
  }

  /** The sections of the first `|roles|` panel entries, in order. */
  function Sections(roles: seq<string>, outputs: seq<string>): string
    requires |roles| == |outputs|
  {
    if |roles| == 0 then []
    else Sections(roles[..|roles| - 1], outputs[..|outputs| - 1])
         + Section(roles[|roles| - 1], outputs[|outputs| - 1])
  }

  /** The whole synthesis prompt. */
  function PanelPrompt(header: string, roles: seq<string>, outputs: seq<string>): string
    requires |roles| == |outputs|
  {
    header + Sections(roles, outputs)
  }

  /** Where the section of panel entry `i` starts in the prompt. */
  function Offset(header: string, roles: seq<string>, outputs: seq<string>, i: nat): nat
    requires |roles| == |outputs| && i <= |roles|
  {
    |header| + |Sections(roles[..i], outputs[..i])|
  }

  /** The sections of two consecutive runs of the panel are the sections of
      each run, one after the other. */
  lemma {:induction false} SectionsAppend(r1: seq<string>, o1: seq<string>, r2: seq<string>, o2: seq<string>)
    requires |r1| == |o1| && |r2| == |o2|
    ensures Sections(r1 + r2, o1 + o2) == Sections(r1, o1) + Sections(r2, o2)
    decreases |r2|
  {
    if |r2| == 0 {
      assert r1 + r2 == r1 && o1 + o2 == o1;
    } else {
      var r, o := r1 + r2, o1 + o2;
      var r2', o2' := r2[..|r2| - 1], o2[..|o2| - 1];
      var last := Section(r2[|r2| - 1], o2[|o2| - 1]);
      assert r[..|r| - 1] == r1 + r2';
      assert o[..|o| - 1] == o1 + o2';
      assert Section(r[|r| - 1], o[|o| - 1]) == last;
      calc {
        Sections(r, o);
        Sections(r1 + r2', o1 + o2') + last;
        { SectionsAppend(r1, o1, r2', o2'); }
        Sections(r1, o1) + Sections(r2', o2') + last;
        Sections(r1, o1) + (Sections(r2', o2') + last);
        Sections(r1, o1) + Sections(r2, o2);
      }
    }
  }

  /** No role is skipped and none is moved: the prompt starts with the header,
      the section of entry `i` sits at `Offset(i)` and is immediately followed
      by the section of entry `i + 1`, and the last section ends the prompt. */
  lemma SectionAt(header: string, roles: seq<string>, outputs: seq<string>, i: nat)
    requires |roles| == |outputs| && i < |roles|
    ensures Offset(header, roles, outputs, 0) == |header|
    ensures PanelPrompt(header, roles, outputs)[..|header|] == header
    ensures Offset(header, roles, outputs, i + 1)
            == Offset(header, roles, outputs, i) + |Section(roles[i], outputs[i])|
    ensures Offset(header, roles, outputs, |roles|) == |PanelPrompt(header, roles, outputs)|
    ensures var off, sec := Offset(header, roles, outputs, i), Section(roles[i], outputs[i]);
            && off + |sec| <= |PanelPrompt(header, roles, outputs)|
            && PanelPrompt(header, roles, outputs)[off..off + |sec|] == sec
  {
    var sec := Section(roles[i], outputs[i]);
    assert roles[..i + 1][..i] == roles[..i] && outputs[..i + 1][..i] == outputs[..i];
    assert Sections(roles[..i + 1], outputs[..i + 1]) == Sections(roles[..i], outputs[..i]) + sec;
    assert roles == roles[..i + 1] + roles[i + 1..] && outputs == outputs[..i + 1] + outputs[i + 1..];
    SectionsAppend(roles[..i + 1], outputs[..i + 1], roles[i + 1..], outputs[i + 1..]);
    assert roles[..|roles|] == roles && outputs[..|outputs|] == outputs;
    var before := header + Sections(roles[..i], outputs[..i]);
    assert PanelPrompt(header, roles, outputs) == before + sec + Sections(roles[i + 1..], outputs[i + 1..]);
  }

  /** The prompt-building loop `prompt += f"{role}: {output}\n\n"`. */
  method BuildPanelPrompt(header: string, roles: seq<string>, outputs: seq<string>) returns (prompt: string)
    requires |roles| == |outputs|
    ensures prompt == PanelPrompt(header, roles, outputs)
  {
    prompt := header;
    var i := 0;
    while i < |roles|
      invariant 0 <= i <= |roles|
      invariant prompt == header + Sections(roles[..i], outputs[..i])
    {
      assert roles[..i + 1][..i] == roles[..i] && outputs[..i + 1][..i] == outputs[..i];
      prompt := prompt + Section(roles[i], outputs[i]);
      i := i + 1;
    }
    assert roles[..i] == roles && outputs[..i] == outputs;
  }
}
