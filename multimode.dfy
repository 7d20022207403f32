/**
 * The web front end's four modes. A mode runs its panel one agent at a
 * time, in panel order, then (except in the quick mode) builds a synthesis
 * prompt from the outputs and runs the synthesis agent once. Running an
 * agent on a task is an abstract backend `kickoff`; an exception it raises
 * ends the whole mode with an error message.
 */
module Multimode {
  import opened Wrappers
  import opened Registry
  import opened Prompt

  /** A task as the application describes it to an agent. */
  datatype TaskSpec = TaskSpec(description: string, expectedOutput: string)

  /** Running one agent on one task: its raw output, or the message of the
      exception it raised. */
  datatype Outcome = Done(raw: string) | Raised(message: string)

  /** The backend: what an agent answers to a task. */
  type Kickoff = (Agent, TaskSpec) -> Outcome

  /** One backend run, in the order the mode issues them. */
  datatype Call = Call(agent: Agent, task: TaskSpec)

  /** What a mode ends with: the final answer together with the individual
      panel outputs, or the error text shown to the user. */
  datatype ModeResult = Answered(answer: string, perspectives: seq<string>) | Failed(message: string)

  const FailurePrefix := "\U{274C} Errore: "

  /** The text shown when a mode fails: the exception's message, verbatim,
      after the fixed prefix. */
  function ErrorMessage(message: string): (r: string)
    ensures |r| == |FailurePrefix| + |message|
    ensures r[..|FailurePrefix|] == FailurePrefix && r[|FailurePrefix|..] == message
  {
    FailurePrefix + message
  }

  /** The last backend run of a mode decides its result. */
  function Conclude(last: Outcome, perspectives: seq<string>): ModeResult {
    match last
    case Done(raw) => Answered(raw, perspectives)
    case Raised(m) => Failed(ErrorMessage(m))
  }

  /** The expected output the panel tasks of each tier carry. */
  function PanelExpected(t: Tier): string {
    match t
    case Quick => "Risposta completa e diretta"
    case Standard => "Risposta specializzata"
    case Deep => "Risposta specializzata"
    case Expert => "Risposta"
  }

  /** The expected output of the synthesis task (the quick tier has none). */
  function SynthesisExpected(t: Tier): string {
    if t == Standard then "Sintesi finale" else "Sintesi"
  }

  /** Every panel task is the question itself. */
  function PanelTask(t: Tier, question: string): TaskSpec {
    TaskSpec(question, PanelExpected(t))
  }

  /** All agents of the panel answer without raising. */
  predicate AllDone(agents: seq<Agent>, task: TaskSpec, kickoff: Kickoff) {
    forall i :: 0 <= i < |agents| ==> kickoff(agents[i], task).Done?
  }

  /** The runs of a whole panel, one per agent, in panel order. */
  function PanelCalls(agents: seq<Agent>, task: TaskSpec): (calls: seq<Call>)
    ensures |calls| == |agents|
    ensures forall i :: 0 <= i < |agents| ==> calls[i] == Call(agents[i], task)
  {
    seq(|agents|, i requires 0 <= i < |agents| => Call(agents[i], task))
  }

  /** The outputs of a panel that did not raise, in panel order. */
  function PanelOutputs(agents: seq<Agent>, task: TaskSpec, kickoff: Kickoff): (outputs: seq<string>)
    requires AllDone(agents, task, kickoff)
    ensures |outputs| == |agents|
    ensures forall i :: 0 <= i < |agents| ==> Done(outputs[i]) == kickoff(agents[i], task)
  {
    seq(|agents|, i requires 0 <= i < |agents| => kickoff(agents[i], task).raw)
  }

  /** The panel loop: create agent i's task, append it, run it. The runs
      happen in panel order, run i belongs to agent i, and the first
      exception stops the loop and is reported. */
  method RunPanel(agents: seq<Agent>, task: TaskSpec, kickoff: Kickoff)
    returns (calls: seq<Call>, outputs: seq<string>, failure: Option<string>)
    ensures |calls| <= |agents|
    ensures forall i :: 0 <= i < |calls| ==> calls[i] == Call(agents[i], task)
    ensures failure.None? <==> AllDone(agents, task, kickoff)
    ensures failure.None? ==> calls == PanelCalls(agents, task) && outputs == PanelOutputs(agents, task, kickoff)
    ensures failure.Some? ==>
              && 0 < |calls|
              && AllDone(agents[..|calls| - 1], task, kickoff)
              && kickoff(agents[|calls| - 1], task) == Raised(failure.value)
  {
    calls, outputs, failure := [], [], None;
    var i := 0;
    while i < |agents|
      invariant 0 <= i <= |agents|
      invariant |calls| == i && forall k :: 0 <= k < i ==> calls[k] == Call(agents[k], task)
      invariant AllDone(agents[..i], task, kickoff)
      invariant |outputs| == i && forall k :: 0 <= k < i ==> Done(outputs[k]) == kickoff(agents[k], task)
    {
      calls := calls + [Call(agents[i], task)];
      var outcome := kickoff(agents[i], task);
      if outcome.Raised? {
        failure := Some(outcome.message);
        assert agents[..|calls| - 1] == agents[..i];
        return;
      }
      outputs := outputs + [outcome.raw];
      assert agents[..i + 1] == agents[..i] + [agents[i]];
      i := i + 1;
    }
    assert agents[..i] == agents;
  }

  const StandardOpening := "Sintetizza queste 3 analisi sulla domanda '"

  /** The standard synthesis header quotes the question. */
  function StandardHeader(question: string): string {
    StandardOpening + question + "':\n\n"
  }

  const StandardLabels := ["Analisi 1 (Tecnica)", "Analisi 2 (Pratica)", "Analisi 3 (Critica)"]

  /** The standard mode's hand-written three-line prompt is the general
      synthesis prompt over its three analyses, numbered 1 Tecnica,
      2 Pratica, 3 Critica, and it quotes the question verbatim. */
  function StandardPrompt(question: string, outputs: seq<string>): (prompt: string)
    requires |outputs| == 3
    ensures prompt == PanelPrompt(StandardHeader(question), StandardLabels, outputs)
    ensures |StandardOpening| + |question| <= |prompt|
    ensures prompt[|StandardOpening|..|StandardOpening| + |question|] == question
  {
    var header := StandardOpening + question + "':\n\n";
    var line1 := "Analisi 1 (Tecnica): " + outputs[0] + "\n\n";
    var line2 := "Analisi 2 (Pratica): " + outputs[1] + "\n\n";
    var line3 := "Analisi 3 (Critica): " + outputs[2] + "\n\n";
    var body := line1 + line2 + line3;
    StandardLines(outputs);
    assert header == StandardHeader(question);
    var n := |StandardOpening|;
    assert (header + body)[n..n + |question|] == header[n..n + |question|];
    assert header[n..n + |question|] == question;
    assert header + line1 + line2 + line3 == header + body;
    header + line1 + line2 + line3
  }

  /** The three hand-written lines are the three labelled sections. */
  lemma StandardLines(outputs: seq<string>)
    requires |outputs| == 3
    ensures Sections(StandardLabels, outputs)
            == ("Analisi 1 (Tecnica): " + outputs[0] + "\n\n")
               + ("Analisi 2 (Pratica): " + outputs[1] + "\n\n")
               + ("Analisi 3 (Critica): " + outputs[2] + "\n\n")
  {
    var ls := StandardLabels;
    assert "Analisi 1 (Tecnica): " == ls[0] + ": ";
    assert "Analisi 2 (Pratica): " == ls[1] + ": ";
    assert "Analisi 3 (Critica): " == ls[2] + ": ";
    assert ls[..2][..1] == ls[..1] && outputs[..2][..1] == outputs[..1];
    assert ls[..1][..0] == [] && outputs[..1][..0] == [];
    assert Sections(ls[..1], outputs[..1]) == Section(ls[0], outputs[0]);
    assert Sections(ls[..2], outputs[..2]) == Section(ls[0], outputs[0]) + Section(ls[1], outputs[1]);
    assert Sections(ls, outputs) == Sections(ls[..2], outputs[..2]) + Section(ls[2], outputs[2]);
  }

  const DeepHeader := "Sintetizza queste 5 analisi:\n\n"
  const ExpertHeader := "Crea sintesi definitiva da 7 analisi:\n\n"

  /** The header of each tier's synthesis prompt (the quick tier has no synthesis). */
  function SynthesisHeader(t: Tier, question: string): string {
    match t
    case Quick => []
    case Standard => StandardHeader(question)
    case Deep => DeepHeader
    case Expert => ExpertHeader
  }

  /** The label of each section: numbered analyses in the standard tier, the
      panel roles in the deep and expert tiers. */
  function SynthesisLabels(t: Tier): (labels: seq<string>)
    ensures |labels| == |Panel(t)|
  {
    if t == Standard then StandardLabels else Roles(Panel(t))
  }

  /** The synthesis prompt of a tier, over the panel outputs in panel order. */
  function ModePrompt(t: Tier, question: string, outputs: seq<string>): string
    requires |outputs| == |Panel(t)|
  {
    PanelPrompt(SynthesisHeader(t, question), SynthesisLabels(t), outputs)
  }

  /** The one synthesis run of a tier that has a synthesis agent. */
  function SynthesisCall(t: Tier, question: string, outputs: seq<string>): Call
    requires t != Quick && |outputs| == |Panel(t)|
  {
    Call(SynthesisAgent(t).value, TaskSpec(ModePrompt(t, question, outputs), SynthesisExpected(t)))
  }

  /** One mode from start to result. The quick mode runs its single agent on
      the question. The other modes run the panel; if every agent answered,
      the synthesis agent runs exactly once, after all of them, on the
      synthesis prompt; if an agent raised, the mode stops there with that
      error and there is no synthesis run. */
  method RunMode(t: Tier, question: string, kickoff: Kickoff) returns (result: ModeResult, calls: seq<Call>)
    ensures t == Quick ==>
              var c := Call(Panel(Quick)[0], PanelTask(Quick, question));
              calls == [c] && result == Conclude(kickoff(c.agent, c.task), [])
    ensures t != Quick && AllDone(Panel(t), PanelTask(t, question), kickoff) ==>
              var outputs := PanelOutputs(Panel(t), PanelTask(t, question), kickoff);
              var synth := SynthesisCall(t, question, outputs);
              && calls == PanelCalls(Panel(t), PanelTask(t, question)) + [synth]
              && result == Conclude(kickoff(synth.agent, synth.task), outputs)
    ensures t != Quick && !AllDone(Panel(t), PanelTask(t, question), kickoff) ==>
              && 0 < |calls| <= |Panel(t)|
              && (forall i :: 0 <= i < |calls| ==> calls[i] == Call(Panel(t)[i], PanelTask(t, question)))
              && AllDone(Panel(t)[..|calls| - 1], PanelTask(t, question), kickoff)
              && kickoff(Panel(t)[|calls| - 1], PanelTask(t, question)).Raised?
              && result == Failed(ErrorMessage(kickoff(Panel(t)[|calls| - 1], PanelTask(t, question)).message))
  {
    var agents, task := Panel(t), PanelTask(t, question);
    if t == Quick {
      var c := Call(agents[0], task);
      calls := [c];
      result := Conclude(kickoff(c.agent, c.task), []);
      return;
    }
    var outputs, failure;
    calls, outputs, failure := RunPanel(agents, task, kickoff);
    if failure.Some? {
      result := Failed(ErrorMessage(failure.value));
      return;
    }
    var prompt;
    if t == Standard {
      prompt := StandardPrompt(question, outputs);
    } else {
      prompt := BuildPanelPrompt(SynthesisHeader(t, question), Roles(agents), outputs);
    }
    var synth := Call(SynthesisAgent(t).value, TaskSpec(prompt, SynthesisExpected(t)));
    calls := calls + [synth];
    result := Conclude(kickoff(synth.agent, synth.task), outputs);
  }

  /** Every panel output reaches the synthesis prompt under its own label,
      in panel order: the section of agent `i` sits at its offset. */
  lemma ModePromptListsEveryAgent(t: Tier, question: string, outputs: seq<string>, i: nat)
    requires |outputs| == |Panel(t)| && i < |outputs|
    ensures var h, ls := SynthesisHeader(t, question), SynthesisLabels(t);
            var off, sec := Offset(h, ls, outputs, i), Section(ls[i], outputs[i]);
            && off + |sec| <= |ModePrompt(t, question, outputs)|
            && ModePrompt(t, question, outputs)[off..off + |sec|] == sec
    ensures t == Deep || t == Expert ==> SynthesisLabels(t)[i] == Panel(t)[i].role
  {
    SectionAt(SynthesisHeader(t, question), SynthesisLabels(t), outputs, i);
  }
}
