/**
 * The question-complexity classifier (`analizza_complessita`): an additive
 * score built from the word count, the number of question marks and three
 * keyword lists, mapped onto one of four tiers with a fixed reason text.
 */
module Classifier {
  import opened Text
  import opened Registry

  /** The three keyword lists; matching is on the lower-cased question. */
  datatype Keywords = Keywords(simple: seq<string>, complex: seq<string>, expert: seq<string>)

  /** The lists the application ships with. */
  const AppKeywords := Keywords(
    ["cos \U{E8}", "cos'\U{E8}", "quando", "dove", "chi \U{E8}", "chi e", "definisci", "significa"],
    ["dovrei", "strategia", "analizza", "confronta", "valuta", "pro e contro", "pros cons", "differenza"],
    ["decisione", "investimento", "importante", "critico", "business", "contratto", "legale", "acquisizione"])

  /** `any(kw in s for kw in keys)`. */
  function ContainsAny(s: string, keys: seq<string>): (b: bool)
    ensures b <==> exists j :: 0 <= j < |keys| && Contains(s, keys[j])
  {
    if keys == [] then false
    else
      assert forall j :: 0 <= j < |keys| - 1 ==> keys[1..][j] == keys[j + 1];
      Contains(s, keys[0]) || ContainsAny(s, keys[1..])
  }

  /** The word-count bucket: 0, 1, 2 or 3 points. */
  function WordPoints(words: nat): (p: int)
    ensures p == 0 <==> words < 10
    ensures p == 1 <==> 10 <= words < 30
    ensures p == 2 <==> 30 <= words < 50
    ensures p == 3 <==> 50 <= words
  {
    if words < 10 then 0
    else if words < 30 then 1
    else if words < 50 then 2
    else 3
  }

  /** One point for more than one question mark. */
  function QuestionPoints(marks: nat): (p: int)
    ensures p == 1 <==> marks > 1
    ensures p == 0 <==> marks <= 1
  {
    if marks > 1 then 1 else 0
  }

  /** A keyword list adds its weight once when at least one of its keywords
      occurs, however many do, and nothing otherwise. */
  function KeywordPoints(lowered: string, keys: seq<string>, weight: int): (p: int)
    ensures (exists j :: 0 <= j < |keys| && Contains(lowered, keys[j])) ==> p == weight
    ensures (forall j :: 0 <= j < |keys| ==> !Contains(lowered, keys[j])) ==> p == 0
  {
    if ContainsAny(lowered, keys) then weight else 0
  }

  /** The additive score of `analizza_complessita`. */
  function Score(question: string, kw: Keywords): (score: int)
    ensures -1 <= score <= 9
  {
    var lowered := Lower(question);
    WordPoints(WordCount(question))
    + QuestionPoints(CountOf(question, '?'))
    + KeywordPoints(lowered, kw.simple, -1)
    + KeywordPoints(lowered, kw.complex, 2)
    + KeywordPoints(lowered, kw.expert, 3)
  }

  /** The tier a score selects. */
  function TierForScore(score: int): (t: Tier)
    ensures t == Quick <==> score <= 0
    ensures t == Standard <==> 1 <= score <= 2
    ensures t == Deep <==> 3 <= score <= 4
    ensures t == Expert <==> 5 <= score
  {
    if score <= 0 then Quick
    else if score <= 2 then Standard
    else if score <= 4 then Deep
    else Expert
  }

  /** Text shown with each suggestion. */
  function Reason(t: Tier): string {
    match t
    case Quick => "\U{1F7E2} Domanda semplice rilevata"
    case Standard => "\U{1F7E1} Domanda standard rilevata"
    case Deep => "\U{1F7E0} Domanda complessa rilevata"
    case Expert => "\U{1F534} Domanda critica rilevata"
  }

  /** Each tier has its own reason text, so the reason shown identifies the
      tier. */
  lemma ReasonDistinct(t: Tier, u: Tier)
    ensures Reason(t) == Reason(u) <==> t == u
  {
    if t != u {
      assert Reason(t)[0] != Reason(u)[0];
    }
  }

  /** No keyword of the list is empty or holds a capital. */
  predicate LowerCaseWords(keys: seq<string>) {
    forall j :: 0 <= j < |keys| ==> keys[j] != [] && forall i :: 0 <= i < |keys[j]| ==> !IsCapital(keys[j][i])
  }

  /** A list without capitals matches the lowered question as written:
      every keyword is its own lower case. */
  lemma LowerCaseWordsFixed(keys: seq<string>)
    requires LowerCaseWords(keys)
    ensures forall j :: 0 <= j < |keys| ==> Lower(keys[j]) == keys[j]
  {
    forall j | 0 <= j < |keys| ensures Lower(keys[j]) == keys[j] {
      LowerUncapitalized(keys[j]);
    }
  }

  /** The shipped lists hold eight keywords each, all non-empty and already
      lower case, so each of them can match the lowered question. */
  lemma AppKeywordsLowered()
    ensures |AppKeywords.simple| == |AppKeywords.complex| == |AppKeywords.expert| == 8
    ensures LowerCaseWords(AppKeywords.simple)
    ensures LowerCaseWords(AppKeywords.complex)
    ensures LowerCaseWords(AppKeywords.expert)
  {
  }

  /** The pair `(mode, reason)` that `analizza_complessita` returns. */
  datatype Suggestion = Suggestion(mode: string, reason: string)

  function Classify(question: string, kw: Keywords): (s: Suggestion)
    ensures exists t: Tier :: s == Suggestion(TierName(t), Reason(t))
    ensures TierOfName(s.mode).Some?
    ensures s.reason == Reason(TierOfName(s.mode).value)
  {
    var t := TierForScore(Score(question, kw));
    TierNameRoundTrip(t);
    Suggestion(TierName(t), Reason(t))
  }

  /** The tier `Classify` suggests. */
  function SuggestedTier(question: string, kw: Keywords): Tier {
    TierOfName(Classify(question, kw).mode).value
  }

  /** The suggested tier is the one the score selects. */
  lemma SuggestedTierFollowsScore(question: string, kw: Keywords)
    ensures SuggestedTier(question, kw) == TierForScore(Score(question, kw))
  {
    TierNameRoundTrip(TierForScore(Score(question, kw)));
  }

  /** Higher scores never select a lower tier. */
  lemma TierMonotone(a: int, b: int)
    requires a <= b
    ensures Rank(TierForScore(a)) <= Rank(TierForScore(b))
  {
  }

  /** Changing the letter case of a question does not change its suggestion:
      the word count, the question marks and the lower-cased text are the same. */
  lemma ClassifyIgnoresCase(question: string, kw: Keywords)
    ensures Classify(Lower(question), kw) == Classify(question, kw)
  {
    var l := Lower(question);
    forall i | 0 <= i < |question| ensures IsSpace(l[i]) <==> IsSpace(question[i]) {
      LowerCharKeepsClass(question[i]);
    }
    SameSpacingSameWordCount(l, question);
    LowerIdempotent(question);
    CountOfLower(question);
  }

  /** Lower-casing keeps every question mark and creates none. */
  lemma {:induction false} CountOfLower(s: string)
    ensures CountOf(Lower(s), '?') == CountOf(s, '?')
    decreases |s|
  {
    if s != [] {
      LowerCharKeepsClass(s[0]);
      assert Lower(s)[1..] == Lower(s[1..]);
      CountOfLower(s[1..]);
    }
  }

  /** A question with a high-stakes keyword is never answered by the quick tier. */
  lemma ExpertKeywordNeverQuick(question: string, kw: Keywords, j: nat)
    requires j < |kw.expert| && Contains(Lower(question), kw.expert[j])
    ensures SuggestedTier(question, kw) != Quick
  {
    SuggestedTierFollowsScore(question, kw);
  }

  /** A short question (fewer than ten words, at most one `?`) with no complex
      or high-stakes keyword is a quick one, whether or not it has a simple keyword. */
  lemma ShortPlainQuestionIsQuick(question: string, kw: Keywords)
    requires WordCount(question) < 10 && CountOf(question, '?') <= 1
    requires forall j :: 0 <= j < |kw.complex| ==> !Contains(Lower(question), kw.complex[j])
    requires forall j :: 0 <= j < |kw.expert| ==> !Contains(Lower(question), kw.expert[j])
    ensures SuggestedTier(question, kw) == Quick
  {
    SuggestedTierFollowsScore(question, kw);
  }

  /** Worked cases: a two-word question with a simple keyword scores -1 (quick);
      35 words with a complex keyword score 4 (deep); 60 words with a
      high-stakes keyword score 6 (expert) — each with at most one `?` and
      no keyword of the other lists. */
  lemma WorkedExamples(question: string, kw: Keywords)
    requires CountOf(question, '?') <= 1
    ensures var lowered := Lower(question);
            var s := ContainsAny(lowered, kw.simple);
            var c := ContainsAny(lowered, kw.complex);
            var e := ContainsAny(lowered, kw.expert);
            && (WordCount(question) == 2 && s && !c && !e ==> Score(question, kw) == -1 && SuggestedTier(question, kw) == Quick)
            && (WordCount(question) == 35 && !s && c && !e ==> Score(question, kw) == 4 && SuggestedTier(question, kw) == Deep)
            && (WordCount(question) == 60 && !s && !c && e ==> Score(question, kw) == 6 && SuggestedTier(question, kw) == Expert)
  {
    SuggestedTierFollowsScore(question, kw);
  }
}
