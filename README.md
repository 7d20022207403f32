# Tiered multi-model consultation: a Dafny model

The system answers a question by putting it to a panel of advisory roles,
each bound to its own language-model backend, and merging their answers in
one synthesis call. It has two front ends:

- a web application (`app_multimode.py`) with four modes — quick (1 role),
  standard (3), deep (5) and expert (7) — and a classifier that suggests a
  mode from the wording of the question;
- a chat bot (`telegram_bot.py`) whose standard path asks three roles,
  joins their answers into one prompt, synthesizes, and cuts the reply into
  messages of at most 4000 characters.

This project models the deterministic core of both, with the backend left
abstract:

- `Text`: the Python string behaviour the core relies on. This covers
  `str.split()` with no argument (Python's own whitespace set), `str.count`,
  `str.lower`, the substring test `k in s` and `sep.join`.
- `Classifier`: `analizza_complessita`. It computes the additive score, maps
  it to a tier and pairs the tier with its reason text. The keyword lists are
  a parameter; `AppKeywords` holds the application's own lists.
- `Registry`: the four tiers and their mode names, the model ids, each
  tier's ordered panel of agents and each tier's synthesis agent.
- `Prompt`: the synthesis prompt, a header followed by one
  `role + ": " + output + "\n\n"` section per role in panel order. It also
  holds the `+=` loop that builds the prompt.
- `Multimode`: the web modes. The panel loop runs one agent at a time. The
  standard prompt is written out line by line. The deep and expert prompts
  come from the loop. The synthesis run comes last. The backend is
  `kickoff: (Agent, TaskSpec) -> Outcome`, and `Raised(message)` stands for
  an exception from the agent library.
- `Telegram`: `query_groq`, which turns every failure into the text
  `"Errore API: " + detail`. Also the responses loop, the joined synthesis
  prompt and `handle_message`. The HTTP exchange is
  `post: (model, system, user) -> Reply`.
- `Chunker`: the 4000-character slicing of the reply.

Backend calls are not executed. Instead, each method that talks to a backend
also returns the sequence of calls it issued, in order. Its contract states
that sequence exactly: which agent or model, with which task or messages,
how many calls, and that the synthesis comes last.

Points where the code behaves in a way a reader might not expect, and which
the model keeps as written:

- Neither front end refuses the synthesis when every role failed. The bot
  always sends the synthesis request, even if all three roles failed, and
  each failure text sits in the prompt (`HandleMessage`,
  `FailedMemberStillListed`). In the web app, a role that raises ends the
  whole mode at once. The later roles never run, no synthesis is made, and
  the user gets `"❌ Errore: " + message` (`RunPanel`, `RunMode`). So the web
  app never turns a failed role into a placeholder in the prompt.
- The bot's chunker cuts hard every 4000 characters, with no preference for
  newline boundaries. It sends any reply of at most 4000 characters, the
  empty one included, as a single part.
- Both front ends call the roles one after another, never concurrently, and
  the model does the same.
- The expert tier has exactly 7 roles.
- The classifier's tier is only a suggestion shown to the user. The mode
  that actually runs is the button the user presses, so `RunMode` takes the
  tier as a parameter.

## Model

| member | source | states |
|---|---|---|
| `Text.Split` | app_multimode.py:112 | `str.split()` yields only non-empty tokens that contain no Python whitespace character |
| `Text.SplitJoin` | app_multimode.py:112 | round trip: splitting words joined by single spaces gives back exactly those words, in order |
| `Text.SplitKeepsVisible` | app_multimode.py:112 | the tokens, glued together, are exactly the non-whitespace characters of the question, in order: only whitespace is dropped |
| `Text.SameSpacingSameWordCount` | app_multimode.py:112 | the word count depends only on which positions hold whitespace |
| `Text.SplitWord` | app_multimode.py:112 | a lone word with no whitespace splits into exactly itself |
| `Text.SplitSpace` | app_multimode.py:112 | a whitespace character in front of the text is dropped, so leading whitespace yields no token and a run of whitespace separates no more than one character does |
| `Text.SplitWordSpace` | app_multimode.py:112 | a word followed by whitespace is the first token, and splitting goes on after that whitespace; with `SplitWord`, `SplitSpace` and `Split("") == []`, this fixes the split of every text |
| `Text.WordLengthUnique` | app_multimode.py:112 | a token ends at the first whitespace character (or at the end of the text), and nowhere else |
| `Text.CountOf` | app_multimode.py:113 | `domanda.count('?')` is the multiplicity of `?` in the question |
| `Text.Lower` | app_multimode.py:120 | lower-casing keeps the length and maps each character on its own; no ASCII or Latin-1 capital is left, and every other character is unchanged |
| `Text.LowerUncapitalized` | app_multimode.py:120 | a text with no capital is its own lower case |
| `Text.LowerCharKeepsClass` | app_multimode.py:120 | lower-casing a character keeps whether it is whitespace, keeps `?` and makes no new `?`, and is idempotent |
| `Text.LowerIdempotent` | app_multimode.py:120 | lower-casing an already lower-cased question changes nothing |
| `Text.Contains` | app_multimode.py:137-142 | `kw in domanda_lower` holds exactly when the keyword occurs at some position; the empty keyword occurs everywhere |
| `Classifier.AppKeywords` | app_multimode.py:116-118 | the three keyword lists, verbatim and in order; stated by `AppKeywordsLowered` |
| `Classifier.AppKeywordsLowered` | app_multimode.py:116-118 | the shipped lists (`AppKeywords`) hold eight keywords each, every one non-empty and free of capitals |
| `Classifier.LowerCaseWordsFixed` | app_multimode.py:116-120 | a keyword list free of capitals is unchanged by lower-casing, so each shipped keyword can match the lowered question as written |
| `Classifier.ContainsAny` | app_multimode.py:137-142 | `any(kw in ... for kw in list)` holds exactly when some keyword of the list occurs |
| `Classifier.WordPoints` | app_multimode.py:125-132 | the word bucket adds 0, 1, 2 or 3 exactly for fewer than 10, 10–29, 30–49 and at least 50 words |
| `Classifier.QuestionPoints` | app_multimode.py:134-135 | more than one `?` adds exactly 1; zero or one adds nothing |
| `Classifier.KeywordPoints` | app_multimode.py:137-142 | a keyword list adds its weight once when any of its keywords occurs, however many do, and 0 when none does (−1 simple, +2 complex, +3 expert) |
| `Classifier.Score` | app_multimode.py:123-142 | the score always lies in [−1, 9] |
| `Classifier.TierForScore` | app_multimode.py:145-152 | exact boundaries, both ways: quick iff score ≤ 0, standard iff 1–2, deep iff 3–4, expert iff ≥ 5 |
| `Classifier.Reason` | app_multimode.py:145-152 | the four reason texts; stated by `ReasonDistinct` and `Classify` |
| `Classifier.ReasonDistinct` | app_multimode.py:145-152 | the four reason texts (`Reason`) are pairwise different, so the reason shown identifies the tier |
| `Classifier.Classify` | app_multimode.py:110-152 | total; the result is the name of one of the four tiers together with that tier's own reason text |
| `Classifier.SuggestedTierFollowsScore` | app_multimode.py:145-152 | the tier that the returned mode name denotes is the one the score selects |
| `Classifier.TierMonotone` | app_multimode.py:145-152 | a higher score never selects a lower tier |
| `Classifier.ClassifyIgnoresCase` | app_multimode.py:112-142 | a question and its lower-cased form get the same suggestion: word count, `?` count and keyword matches all agree |
| `Classifier.CountOfLower` | app_multimode.py:113-120 | lower-casing neither adds nor removes a `?` |
| `Classifier.ExpertKeywordNeverQuick` | app_multimode.py:118-146 | a question containing any high-stakes keyword is never suggested the quick tier |
| `Classifier.ShortPlainQuestionIsQuick` | app_multimode.py:125-146 | fewer than 10 words, at most one `?`, no complex or high-stakes keyword: quick, with or without a simple keyword |
| `Classifier.WorkedExamples` | app_multimode.py:123-152 | 2 words with a simple keyword score −1 (quick); 35 words with a complex keyword score 4 (deep); 60 words with a high-stakes keyword score 6 (expert) |
| `Registry.TierOfName` | app_multimode.py:202 | the mode dispatch `modalita == ...` at 202, 239, 308 and 385: a mode string selects the tier of that name, and any other string selects none |
| `Registry.TierNameRoundTrip` | app_multimode.py:145-152 | every mode name the classifier can return dispatches back to its tier |
| `Registry.Panel` | app_multimode.py:207-409 | the panels at 209-215, 250-254, 322-328 and 401-409 hold 1, 3, 5 and 7 agents, in source order; within a panel no two agents share a role or a model |
| `Registry.Roles` | app_multimode.py:356-358 | the role names of a panel, one per agent, in panel order |
| `Registry.SynthesisAgent` | app_multimode.py:264-433 | quick has no synthesis agent and every other tier has one (264-270, 349-354, 428-433); its model is used by a panel agent of the same tier (the 8B Llama in standard, the 70B Llama in deep and expert), and its role is not a panel role |
| `Prompt.SectionsAppend` | app_multimode.py:356-358 | the sections of two consecutive runs of entries are the sections of each, one after the other |
| `Prompt.SectionAt` | app_multimode.py:356-358 | layout of the prompt: the header comes first, entry i's section `role_i + ": " + output_i + "\n\n"` starts at its offset and is followed by entry i+1's, and the last one ends the prompt; no role is skipped or moved |
| `Prompt.BuildPanelPrompt` | app_multimode.py:356-358 | the `+=` loop builds exactly the header followed by every section in panel order |
| `Multimode.ErrorMessage` | app_multimode.py:236 | the error shown when a mode fails (the same text at 236, 305, 382 and 460): the exception's message verbatim after `"❌ Errore: "` |
| `Multimode.RunPanel` | app_multimode.py:334-343 | one run per agent, in panel order; run i is agent i's run on the question; if no agent raises, there are as many runs and outputs as agents and output i is agent i's; otherwise the loop stops just after the first agent that raised and reports its message |
| `Multimode.StandardPrompt` | app_multimode.py:272-275 | the standard prompt quotes the question verbatim after its opening. It is the general synthesis prompt over exactly three analyses labelled 1 Tecnica, 2 Pratica, 3 Critica, in that order |
| `Multimode.StandardLines` | app_multimode.py:273-275 | the three hand-written lines are the three labelled sections |
| `Multimode.RunMode` | app_multimode.py:206-441 | quick: one run of the generalist agent on the question. Other tiers, when every agent answers: the panel runs in order, then exactly one run of the tier's synthesis agent on that tier's prompt, last, and its output is the answer. If an agent raises: only the runs up to it, no synthesis, and the result is the error text |
| `Multimode.ModePromptListsEveryAgent` | app_multimode.py:435-437 | every panel output stands under its own label at its offset in the synthesis prompt; in deep and expert the label is the agent's role |
| `Telegram.QueryGroq` | telegram_bot.py:45-51 | never fails: returns the content when the request succeeds and `"Errore API: " + detail` when it raises |
| `Telegram.PanelResponses` | telegram_bot.py:133-135 | one response per panel member, in order, each `role + ": " + answer` with system message `"Sei un " + role + "."` |
| `Telegram.CollectResponses` | telegram_bot.py:132-135 | the loop queries each member once, in panel order, and builds exactly those responses |
| `Telegram.HandleMessage` | telegram_bot.py:126-157 | three member requests in order, then exactly one request to `llama-3.3-70b-versatile` with `"Crea sintesi coerente."` on `"Sintetizza:\n\n"` + the responses joined by `"\n\n"`, made even if every member failed; the messages sent are the chunks of the framed reply |
| `Text.Join` | telegram_bot.py:138 | `sep.join(xs)`; its contract is stated by `JoinLength`, `JoinEnds` and `JoinCons` |
| `Text.JoinCons` | telegram_bot.py:138 | a join peels off its first element and separator as well as its last |
| `Text.JoinLength` | telegram_bot.py:138 | `sep.join(xs)` of a non-empty list is as long as the elements together plus one separator fewer than there are elements |
| `Text.JoinEnds` | telegram_bot.py:138 | `sep.join(xs)` of a non-empty list starts with its first element and ends with its last: no separator at either end |
| `Telegram.SynthesisPrompt` | telegram_bot.py:138 | the synthesis prompt starts with `"Sintetizza:\n\n"`, and is only that when there are no responses; its layout after the opening is stated by `JoinedPromptIsPanelPrompt` |
| `Telegram.JoinedPromptIsPanelPrompt` | telegram_bot.py:138 | the joined prompt, with the final separator added back, has the same layout as the web deep/expert prompt: the opening, then one `role: answer` section per member |
| `Telegram.FailedMemberStillListed` | telegram_bot.py:132-138 | a member whose request raised still appears in the synthesis prompt as `role + ": Errore API: " + detail` |
| `Telegram.Panel` | telegram_bot.py:126-130 | the bot's three members, models and roles in source order; stated by `PanelMatchesStandardTier` |
| `Telegram.ResponseText` | telegram_bot.py:149 | the reply framing: the synthesized answer stands verbatim between the fixed header `"✅ *Risposta Sintetizzata:*\n\n"` and the fixed footer |
| `Telegram.PanelMatchesStandardTier` | telegram_bot.py:126-130 | the bot's panel is the web standard panel, with the same roles and models in the same order (app_multimode.py:245-254). Its synthesis model is none of them |
| `Chunker.Slices` | telegram_bot.py:153 | every slice is non-empty and at most 4000 long; all but the last are exactly 4000 |
| `Chunker.PartCountIsCeiling` | telegram_bot.py:153 | `len(range(0, n, 4000))` is ceil(n/4000): (count−1)·4000 < n ≤ count·4000 |
| `Chunker.SliceShift` | telegram_bot.py:153 | slice i of a text longer than 4000 is slice i-1 of the text with its first 4000 characters removed |
| `Chunker.SlicesUnfold` | telegram_bot.py:153 | the slices of a long text are its first 4000 characters followed by the slices of the rest |
| `Chunker.SlicesConcat` | telegram_bot.py:153 | the slices, concatenated in order, give back the text |
| `Chunker.Chunk` | telegram_bot.py:152-157 | the bot sends at least one part; with more than one part, every part is at most 4000 long; a part is empty only when the whole reply is |
| `Chunker.ChunkShort` | telegram_bot.py:152-157 | a reply of at most 4000 characters, exactly 4000 included, is sent unchanged as one part |
| `Chunker.ChunkLong` | telegram_bot.py:152-155 | a longer reply becomes ceil(len/4000) ≥ 2 parts, every one at most 4000 long and all but the last exactly 4000 |
| `Chunker.ChunkConcat` | telegram_bot.py:152-157 | in every case the parts, concatenated in order, reproduce the reply exactly |

## Left out

- The web page is left out: page setup, styling, sidebar, text area, buttons, columns, expanders,
  spinners, captions and the key prompt (app_multimode.py:1-108, 154-197 and the rendering lines of each mode). These are
  presentation. The button choice is user input and becomes `RunMode`'s tier parameter.
- Progress-bar fractions and status texts (floating point, display only) are left out, and so is the elapsed time from
  `datetime.now()` (a clock).
- The agent library objects (`Agent`, `Task`, `Crew`, `kickoff`) and the chat-model client are not modelled. The model keeps
  only "run this agent on this task, get raw text or an exception" (`Multimode.Kickoff`). The library's
  prompt assembly from role, goal, backstory and expected output is not visible. Temperature 0.7 and `max_tokens` are
  generation parameters and are left out too. The standard mode runs its three tasks as one sequential crew. That is modelled as
  three runs in panel order. Whether the library feeds earlier outputs to later tasks is its own
  behaviour, and the model does not capture it.
- A single backend call is a function of its inputs. The nondeterminism of a language model is not
  modelled. No mode repeats a request, so this fixes no behaviour of the code.
- The HTTP request, headers, JSON decoding, timeout and logging inside `query_groq` (telegram_bot.py:28-50) are I/O.
  They become the abstract `post`. Environment loading (telegram_bot.py:14-23) is left out as well.
- The bot's commands `/start`, `/help` and `/quick` (telegram_bot.py:54-113) are left out. So are the thinking message and its
  deletion, sending each part with `reply_text` and Markdown mode, the `except` around `handle_message`, the
  error handler, the webhook and `main`. All of this is transport. `query_groq` never raises, so that `except` only
  catches transport errors.
- There is no concurrency to model: both front ends call their roles one after another.
- Text.Lower: lower-cases only A–Z and the Latin-1 capitals U+00C0–U+00DE (except ×). For other
  characters Python's `str.lower` uses full Unicode case mapping. For example, U+212A KELVIN SIGN becomes `k`, and U+0130 becomes two
  characters. So such characters can make a keyword match in the source that the model does not see.
