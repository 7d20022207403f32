/**
 * The fixed configuration of the web front end: the four tiers, the
 * backend models, and for each tier its ordered panel of agents and the
 * agent that writes the synthesis.
 */
module Registry {
  import opened Wrappers

  datatype Tier = Quick | Standard | Deep | Expert

  /** Position of a tier in escalation order. */
  function Rank(t: Tier): nat {
    match t
    case Quick => 0
    case Standard => 1
    case Deep => 2
    case Expert => 3
  }

  /** The mode string the application uses for a tier. */
  function TierName(t: Tier): string {
    match t
    case Quick => "quick"
    case Standard => "standard"
    case Deep => "deep"
    case Expert => "expert"
  }

  /** The mode dispatch `if modalita == "quick": ... elif ...`: a mode string
      selects at most one tier; any other string selects none. */
  function TierOfName(name: string): (t: Option<Tier>)
    ensures t.Some? ==> TierName(t.value) == name
    ensures t.None? ==> forall u: Tier :: TierName(u) != name
  {
    if name == "quick" then Some(Quick)
    else if name == "standard" then Some(Standard)
    else if name == "deep" then Some(Deep)
    else if name == "expert" then Some(Expert)
    else None
  }

  /** Every tier's name dispatches back to that tier. */
  lemma TierNameRoundTrip(t: Tier)
    ensures TierOfName(TierName(t)) == Some(t)
  {
  }

  // Backend model identifiers.
  const Llama8B := "llama-3.1-8b-instant"
  const Llama70B := "llama-3.1-70b-versatile"
  const Llama33 := "llama-3.3-70b-versatile"
  const Mixtral := "mixtral-8x7b-32768"
  const Gemma := "gemma-7b-it"
  const Gemma2 := "gemma2-9b-it"
  const Qwen := "qwen2-72b-instruct"

  /** An advisory agent: display role, goal, optional backstory and the
      backend model it is bound to. */
  datatype Agent = Agent(role: string, goal: string, backstory: Option<string>, model: string)

  /** The agents of a panel are pairwise distinct in role and in model. */
  predicate Distinct(agents: seq<Agent>) {
    forall i, j :: 0 <= i < j < |agents| ==> agents[i].role != agents[j].role && agents[i].model != agents[j].model
  }

  /** The ordered panel of each tier: 1, 3, 5 and 7 agents, every agent with
      its own role and its own model. */
  function Panel(t: Tier): (agents: seq<Agent>)
    ensures |agents| == 2 * Rank(t) + 1
    ensures Distinct(agents)
  {
    match t
    case Quick => [
      Agent("Esperto Generalista", "Fornisci risposta completa, chiara e diretta",
            Some("Sei un esperto versatile con vasta conoscenza"), Llama70B)]
    case Standard => [
      Agent("Analista Tecnico", "Fornisci analisi dettagliata e precisa", Some("Esperto analitico"), Llama8B),
      Agent("Esperto Pratico", "Fornisci esempi concreti e applicabili", Some("Professionista sul campo"), Mixtral),
      Agent("Pensatore Critico", "Analizza criticamente e offri prospettive alternative", Some("Devil's advocate"), Gemma)]
    case Deep => [
      Agent("Analista Tecnico", "Dettagli tecnici", None, Llama8B),
      Agent("Stratega", "Visione strategica", None, Llama70B),
      Agent("Esperto Pratico", "Applicazioni concrete", None, Mixtral),
      Agent("Pensatore Critico", "Analisi critica", None, Gemma),
      Agent("Prospettiva Globale", "Contesto internazionale", None, Qwen)]
    case Expert => [
      Agent("Analista Tecnico", "Profondit\U{E0} tecnica", None, Llama8B),
      Agent("Stratega Senior", "Visione long-term", None, Llama70B),
      Agent("Innovatore", "Soluzioni creative", None, Llama33),
      Agent("Esperto Pratico", "Implementazione", None, Mixtral),
      Agent("Critico Costruttivo", "Identificare rischi", None, Gemma),
      Agent("Verificatore", "Fact-checking", None, Gemma2),
      Agent("Prospettiva Globale", "Contesto geopolitico", None, Qwen)]
  }

  /** The display roles of a panel, in panel order. */
  function Roles(agents: seq<Agent>): (names: seq<string>)
    ensures |names| == |agents|
    ensures forall i :: 0 <= i < |agents| ==> names[i] == agents[i].role
  {
    seq(|agents|, i requires 0 <= i < |agents| => agents[i].role)
  }

  /** The synthesis agent of each tier. The quick tier has none; every other
      tier synthesizes on a model that one of its own panel agents also uses
      (the 8B Llama for standard, the 70B Llama for deep and expert), under a
      role that is not a panel role. */
  function SynthesisAgent(t: Tier): (a: Option<Agent>)
    ensures a.None? <==> t == Quick
    ensures a.Some? ==> exists i :: 0 <= i < |Panel(t)| && Panel(t)[i].model == a.value.model
    ensures a.Some? ==> forall i :: 0 <= i < |Panel(t)| ==> Panel(t)[i].role != a.value.role
  {
    match t
    case Quick => None
    case Standard =>
      assert Panel(t)[0].model == Llama8B;
      Some(Agent("Sintetizzatore", "Combina le 3 prospettive in una sintesi coerente",
                 Some("Esperto in sintesi multi-prospettica"), Llama8B))
    case Deep =>
      assert Panel(t)[1].model == Llama70B;
      Some(Agent("Master Sintetizzatore", "Sintesi definitiva da 5 prospettive", None, Llama70B))
    case Expert =>
      assert Panel(t)[1].model == Llama70B;
      Some(Agent("Master Sintetizzatore", "Sintesi definitiva da 7 prospettive", None, Llama70B))
  }
}
