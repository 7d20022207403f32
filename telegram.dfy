/**
 * The chat-bot front end's standard path (`handle_message`): three fixed
 * panel members are queried one after the other through `query_groq`, their
 * answers are joined into one synthesis prompt, a fourth query synthesizes,
 * and the framed reply is cut into messages. The HTTP request itself is an
 * abstract backend `post`.
 */
module Telegram {
  import opened Text
  import opened Prompt
  import opened Chunker
  import Registry

  /** What the HTTP exchange of `query_groq` gives: the message content, or
      the text of the exception it raised (timeout, bad status, bad JSON). */
  datatype Reply = Content(text: string) | Raised(detail: string)

  /** The backend: model, system message and user message to a reply. */
  type Post = (string, string, string) -> Reply

  /** One backend request, in the order the handler issues them. */
  datatype Request = Request(model: string, system: string, user: string)

  const ErrorPrefix := "Errore API: "

  /** `query_groq` never raises: a failure comes back as text. */
  function QueryGroq(post: Post, model: string, system: string, user: string): (answer: string)
    ensures post(model, system, user).Content? ==> answer == post(model, system, user).text
    ensures post(model, system, user).Raised? ==> answer == ErrorPrefix + post(model, system, user).detail
  {
    match post(model, system, user)
    case Content(text) => text
    case Raised(detail) => ErrorPrefix + detail
  }

  /** A panel member: backend model and role. */
  datatype Member = Member(model: string, role: string)

  /** The bot's three-member panel, in order. */
  const Panel := [
    Member(Registry.Llama8B, "Analista Tecnico"),
    Member(Registry.Mixtral, "Esperto Pratico"),
    Member(Registry.Gemma, "Pensatore Critico")]

  /** The system message each member is queried with. */
  function Directive(role: string): string {
    "Sei un " + role + "."
  }

  /** The request for one member. */
  function MemberRequest(m: Member, question: string): Request {
    Request(m.model, Directive(m.role), question)
  }

  /** The answer of one member, failure text included. */
  function Answer(post: Post, m: Member, question: string): string {
    QueryGroq(post, m.model, Directive(m.role), question)
  }

  /** The entry `f"{role}: {r}"` one member adds to the responses. */
  function Response(post: Post, m: Member, question: string): string {
    m.role + ": " + Answer(post, m, question)
  }

  function PanelRequests(panel: seq<Member>, question: string): (requests: seq<Request>)
    ensures |requests| == |panel|
    ensures forall i :: 0 <= i < |panel| ==> requests[i] == MemberRequest(panel[i], question)
  {
    seq(|panel|, i requires 0 <= i < |panel| => MemberRequest(panel[i], question))
  }

  function PanelResponses(post: Post, panel: seq<Member>, question: string): (responses: seq<string>)
    ensures |responses| == |panel|
    ensures forall i :: 0 <= i < |panel| ==> responses[i] == Response(post, panel[i], question)
  {
    seq(|panel|, i requires 0 <= i < |panel| => Response(post, panel[i], question))
  }

  /** The responses loop: one query per member, in panel order, each
      answer appended under its role. */
  method CollectResponses(post: Post, panel: seq<Member>, question: string)
    returns (responses: seq<string>, requests: seq<Request>)
    ensures responses == PanelResponses(post, panel, question)
    ensures requests == PanelRequests(panel, question)
  {
    responses, requests := [], [];
    var i := 0;
    while i < |panel|
      invariant 0 <= i <= |panel|
      invariant responses == PanelResponses(post, panel[..i], question)
      invariant requests == PanelRequests(panel[..i], question)
    {
      var m := panel[i];
      requests := requests + [MemberRequest(m, question)];
      var r := QueryGroq(post, m.model, Directive(m.role), question);
      responses := responses + [m.role + ": " + r];
      assert panel[..i + 1] == panel[..i] + [m];
      i := i + 1;
    }
    assert panel[..i] == panel;
  }

  const SynthesisOpening := "Sintetizza:\n\n"
  const SynthesisModel := Registry.Llama33
  const SynthesisDirective := "Crea sintesi coerente."

  /** `"Sintetizza:\n\n" + "\n\n".join(responses)`. */
  function SynthesisPrompt(responses: seq<string>): (r: string)
    ensures |SynthesisOpening| <= |r| && r[..|SynthesisOpening|] == SynthesisOpening
    ensures responses == [] ==> r == SynthesisOpening
  {
    SynthesisOpening + Join("\n\n", responses)
  }

  const ReplyHeader := "\U{2705} *Risposta Sintetizzata:*\n\n"
  const ReplyFooter := "\n\n\U{1F4CA} 3 modelli consultati\n\U{1F4B0} Costo: $0.00"

  /** The framed reply around the synthesized answer: the answer stands
      verbatim between the fixed header and footer. */
  function ResponseText(finale: string): (r: string)
    ensures |r| == |ReplyHeader| + |finale| + |ReplyFooter|
    ensures r[..|ReplyHeader|] == ReplyHeader
    ensures r[|ReplyHeader|..|ReplyHeader| + |finale|] == finale
    ensures r[|ReplyHeader| + |finale|..] == ReplyFooter
  {
    ReplyHeader + finale + ReplyFooter
  }

  /** The standard path of the bot. The three member queries come first, in
      panel order, then exactly one synthesis query to the 3.3 70B Llama on
      the joined responses; there is no check for failed members, so the
      synthesis query is made even when every member failed. The messages
      sent are the chunks of the framed reply. */
  method HandleMessage(post: Post, question: string) returns (messages: seq<string>, requests: seq<Request>)
    ensures var prompt := SynthesisPrompt(PanelResponses(post, Panel, question));
            && requests == PanelRequests(Panel, question) + [Request(SynthesisModel, SynthesisDirective, prompt)]
            && messages == Chunk(ResponseText(QueryGroq(post, SynthesisModel, SynthesisDirective, prompt)))
  {
    var responses;
    responses, requests := CollectResponses(post, Panel, question);
    var prompt := SynthesisPrompt(responses);
    requests := requests + [Request(SynthesisModel, SynthesisDirective, prompt)];
    var finale := QueryGroq(post, SynthesisModel, SynthesisDirective, prompt);
    var text := ResponseText(finale);
    if |text| > MaxLength {
      messages := Slices(text);
    } else {
      messages := [text];
    }
  }

  /** The roles and the answers of a panel, in panel order. */
  function MemberRoles(panel: seq<Member>): (roles: seq<string>)
    ensures |roles| == |panel| && forall i :: 0 <= i < |panel| ==> roles[i] == panel[i].role
  {
    seq(|panel|, i requires 0 <= i < |panel| => panel[i].role)
  }

  function MemberAnswers(post: Post, panel: seq<Member>, question: string): (answers: seq<string>)
    ensures |answers| == |panel| && forall i :: 0 <= i < |panel| ==> answers[i] == Answer(post, panel[i], question)
  {
    seq(|panel|, i requires 0 <= i < |panel| => Answer(post, panel[i], question))
  }

  /** The bot's joined prompt has the same layout as the web front end's
      deep and expert prompts: with the final separator added back, it is the
      opening followed by one `role: answer` section per member. */
  lemma {:induction false} JoinedPromptIsPanelPrompt(post: Post, panel: seq<Member>, question: string)
    requires |panel| > 0
    ensures SynthesisPrompt(PanelResponses(post, panel, question)) + "\n\n"
            == PanelPrompt(SynthesisOpening, MemberRoles(panel), MemberAnswers(post, panel, question))
    decreases |panel|
  {
    var n := |panel|;
    var rs, roles, answers := PanelResponses(post, panel, question), MemberRoles(panel), MemberAnswers(post, panel, question);
    var init := panel[..n - 1];
    assert PanelResponses(post, init, question) == rs[..n - 1];
    assert MemberRoles(init) == roles[..n - 1];
    assert MemberAnswers(post, init, question) == answers[..n - 1];
    if n == 1 {
      assert Join("\n\n", rs) == rs[0];
      assert roles[..0] == [] && answers[..0] == [];
      assert Sections(roles, answers) == Section(roles[0], answers[0]);
    } else {
      JoinedPromptIsPanelPrompt(post, init, question);
      var j, secs := Join("\n\n", rs[..n - 1]), Sections(roles[..n - 1], answers[..n - 1]);
      assert SynthesisOpening + j + "\n\n" == SynthesisOpening + secs;
      assert Section(roles[n - 1], answers[n - 1]) == rs[n - 1] + "\n\n";
      calc {
        SynthesisPrompt(rs) + "\n\n";
        SynthesisOpening + (j + "\n\n" + rs[n - 1]) + "\n\n";
        (SynthesisOpening + j + "\n\n") + (rs[n - 1] + "\n\n");
        (SynthesisOpening + secs) + Section(roles[n - 1], answers[n - 1]);
        SynthesisOpening + Sections(roles, answers);
      }
    }
  }

  /** A member whose query failed is not dropped: its role and the error
      text stand in the synthesis prompt (for the bot's own panel, and for
      any other). */
  lemma FailedMemberStillListed(post: Post, panel: seq<Member>, question: string, i: nat)
    requires i < |panel|
    requires post(panel[i].model, Directive(panel[i].role), question).Raised?
    ensures Contains(SynthesisPrompt(PanelResponses(post, panel, question)),
                     panel[i].role + ": " + ErrorPrefix + post(panel[i].model, Directive(panel[i].role), question).detail)
  {
    var prompt := SynthesisPrompt(PanelResponses(post, panel, question));
    var roles, answers := MemberRoles(panel), MemberAnswers(post, panel, question);
    JoinedPromptIsPanelPrompt(post, panel, question);
    SectionAt(SynthesisOpening, roles, answers, i);
    var off := Offset(SynthesisOpening, roles, answers, i);
    var entry := roles[i] + ": " + answers[i];
    assert Section(roles[i], answers[i]) == entry + "\n\n";
    assert OccursAt(prompt + "\n\n", entry + "\n\n", off);
    OccursBeforeExtension(prompt, "\n\n", entry, "\n\n", off);
    assert entry == panel[i].role + ": " + ErrorPrefix + post(panel[i].model, Directive(panel[i].role), question).detail;
  }

  /** The bot's panel is the web front end's standard panel: same roles,
      same models, same order; its synthesis model is not one of them. */
  lemma PanelMatchesStandardTier()
    ensures |Panel| == |Registry.Panel(Registry.Standard)|
    ensures forall i :: 0 <= i < |Panel| ==>
              Panel[i].role == Registry.Panel(Registry.Standard)[i].role
              && Panel[i].model == Registry.Panel(Registry.Standard)[i].model
    ensures forall i :: 0 <= i < |Panel| ==> Panel[i].model != SynthesisModel
  {
  }
}
