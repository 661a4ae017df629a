/** The three analyses `index()` chooses between, and the choice itself
    (main.py:58-88). */
module Analysis {
  import opened Wrappers
  import opened Services
  import opened Partition
  import opened Text

  /** The analysis a request asks for. */
  datatype Mode = Summarize | ExtractKeywords | AskQuestion

  /** The option label the form sends for each mode. */
  function Label(m: Mode): (name: string)
    ensures name == "Summarize Articles" <==> m == Summarize
    ensures name == "Extract Keywords" <==> m == ExtractKeywords
    ensures name == "Ask a Question" <==> m == AskQuestion
  {
    match m
    case Summarize => "Summarize Articles"
    case ExtractKeywords => "Extract Keywords"
    case AskQuestion => "Ask a Question"
  }

  /** The mode whose label the submitted option equals, if any: the
      comparisons `option == "..."` of the `if`/`elif` chain. */
  function SelectedMode(option: Option<string>): (r: Option<Mode>)
    ensures forall m :: r == Some(m) <==> option == Some(Label(m))
  {
    if option == Some("Summarize Articles") then Some(Summarize)
    else if option == Some("Extract Keywords") then Some(ExtractKeywords)
    else if option == Some("Ask a Question") then Some(AskQuestion)
    else None
  }

  /** At most ten ranked phrases are kept per article. */
  const MaxPhrases := 10

  /** One article's keyword outcome: the kept phrases, or an error string. */
  datatype KeywordSlot = Ranked(phrases: seq<ScoredPhrase>) | KeywordError(message: string)

  /** What a request produces: one summary per article, one keyword outcome
      per article, or the single answer (the one-element list of main.py:86
      and main.py:88). */
  datatype Results =
    | SummaryResults(summaries: seq<string>)
    | KeywordResults(slots: seq<KeywordSlot>)
    | Answered(answer: string)

  const SummaryErrorPrefix := "Error summarizing article: "
  const KeywordErrorPrefix := "Error extracting keywords: "
  const AnswerErrorPrefix := "Error finding answer: "

  /** One article's entry in the summary list (main.py:62-66). */
  function SummaryOf(svc: Services, text: string): (entry: string)
    ensures svc.summarize(text, SummarySettings()).Ok? ==>
              entry == svc.summarize(text, SummarySettings()).value
    ensures svc.summarize(text, SummarySettings()).Err? ==>
              entry == SummaryErrorPrefix + svc.summarize(text, SummarySettings()).detail
  {
    match svc.summarize(text, SummarySettings())
    case Ok(summary) => summary
    case Err(detail) => SummaryErrorPrefix + detail
  }

  /** The summary list: entry `k` is the outcome for article `k` alone. */
  function Summaries(svc: Services, texts: seq<string>): (r: seq<string>)
    ensures |r| == |texts|
    ensures forall k :: 0 <= k < |texts| ==> r[k] == SummaryOf(svc, texts[k])
  {
    if texts == [] then [] else [SummaryOf(svc, texts[0])] + Summaries(svc, texts[1..])
  }

  /** `ranked[:10]`: the first ten entries in the ranker's own order, or all
      of them when there are fewer. */
  function TopPhrases(ranked: seq<ScoredPhrase>): (r: seq<ScoredPhrase>)
    ensures |r| <= MaxPhrases
    ensures |r| == MaxPhrases || r == ranked
    ensures r <= ranked
  {
    if |ranked| <= MaxPhrases then ranked else ranked[..MaxPhrases]
  }

  /** Truncation is only a cut: it keeps a list of at most ten phrases as it
      is, and truncating twice is truncating once. */
  lemma TopPhrasesKeepsShortLists(ranked: seq<ScoredPhrase>)
    ensures TopPhrases(ranked) == ranked <==> |ranked| <= MaxPhrases
    ensures TopPhrases(TopPhrases(ranked)) == TopPhrases(ranked)
  {
  }

  /** One article's keyword outcome (main.py:74-78). */
  function KeywordsOf(svc: Services, text: string): (slot: KeywordSlot)
    ensures slot.Ranked? <==> svc.rank(text).Ok?
    ensures slot.Ranked? ==> |slot.phrases| <= MaxPhrases && slot.phrases <= svc.rank(text).value
    ensures slot.KeywordError? ==> slot.message == KeywordErrorPrefix + svc.rank(text).detail
  {
    match svc.rank(text)
    case Ok(ranked) => Ranked(TopPhrases(ranked))
    case Err(detail) => KeywordError(KeywordErrorPrefix + detail)
  }

  /** The keyword list: entry `k` is the outcome for article `k` alone. */
  function KeywordSlots(svc: Services, texts: seq<string>): (r: seq<KeywordSlot>)
    ensures |r| == |texts|
    ensures forall k :: 0 <= k < |texts| ==> r[k] == KeywordsOf(svc, texts[k])
  {
    if texts == [] then [] else [KeywordsOf(svc, texts[0])] + KeywordSlots(svc, texts[1..])
  }

  /** The single answer over the space-joined texts (main.py:83-88). */
  function AnswerOf(svc: Services, question: string, texts: seq<string>): (reply: string)
    ensures svc.answer(question, Join(texts)).Ok? ==> reply == svc.answer(question, Join(texts)).value
    ensures svc.answer(question, Join(texts)).Err? ==>
              reply == AnswerErrorPrefix + svc.answer(question, Join(texts)).detail
  {
    match svc.answer(question, Join(texts))
    case Ok(answer) => answer
    case Err(detail) => AnswerErrorPrefix + detail
  }

  /** Whether the chain runs the branch for mode `m`: the option selects it
      and there is at least one valid article (and, to ask, a truthy
      question). */
  predicate Runs(m: Mode, option: Option<string>, texts: seq<string>, question: Option<string>)
  {
    SelectedMode(option) == Some(m) && |texts| > 0 && (m == AskQuestion ==> Truthy(question))
  }

  /** The `if`/`elif` chain of main.py:59-88 over the valid articles. */
  function Dispatch(svc: Services, option: Option<string>, texts: seq<string>,
                    question: Option<string>): (r: Option<Results>)
    ensures r.Some? <==> Runs(Summarize, option, texts, question) ||
                         Runs(ExtractKeywords, option, texts, question) ||
                         Runs(AskQuestion, option, texts, question)
    ensures r.Some? ==> (r.value.SummaryResults? <==> Runs(Summarize, option, texts, question))
    ensures r.Some? ==> (r.value.KeywordResults? <==> Runs(ExtractKeywords, option, texts, question))
    ensures r.Some? ==> (r.value.Answered? <==> Runs(AskQuestion, option, texts, question))
  {
    if option == Some("Summarize Articles") && |texts| > 0 then
      Some(SummaryResults(Summaries(svc, texts)))
    else if option == Some("Extract Keywords") && |texts| > 0 then
      Some(KeywordResults(KeywordSlots(svc, texts)))
    else if option == Some("Ask a Question") && |texts| > 0 && Truthy(question) then
      Some(Answered(AnswerOf(svc, question.value, texts)))
    else
      None
  }

  /** No result at all when there is no valid article, when the option is
      none of the three labels, or when a question is asked without one. */
  lemma NoResultCases(svc: Services, option: Option<string>, texts: seq<string>,
                      question: Option<string>)
    ensures |texts| == 0 ==> Dispatch(svc, option, texts, question) == None
    ensures SelectedMode(option) == None ==> Dispatch(svc, option, texts, question) == None
    ensures SelectedMode(option) == Some(AskQuestion) && !Truthy(question) ==>
              Dispatch(svc, option, texts, question) == None
  {
  }

  /** Summarising: one entry per valid article, in order; an entry is the
      summary when the summariser succeeds on that article, and otherwise
      the error string for that article alone. */
  lemma SummaryIsolation(svc: Services, option: Option<string>, texts: seq<string>,
                         question: Option<string>, k: nat)
    requires Runs(Summarize, option, texts, question) && k < |texts|
    ensures Dispatch(svc, option, texts, question).Some?
    ensures var r := Dispatch(svc, option, texts, question).value;
            r.SummaryResults? && |r.summaries| == |texts| &&
            r.summaries[k] == match svc.summarize(texts[k], SummarySettings())
                              case Ok(summary) => summary
                              case Err(detail) => SummaryErrorPrefix + detail
  {
  }

  /** Keyword extraction: one slot per valid article, in order; a slot holds
      the first at most ten ranked phrases when ranking that article
      succeeds, and otherwise that article's error string. */
  lemma KeywordIsolation(svc: Services, option: Option<string>, texts: seq<string>,
                         question: Option<string>, k: nat)
    requires Runs(ExtractKeywords, option, texts, question) && k < |texts|
    ensures Dispatch(svc, option, texts, question).Some?
    ensures var r := Dispatch(svc, option, texts, question).value;
            r.KeywordResults? && |r.slots| == |texts| &&
            r.slots[k] == match svc.rank(texts[k])
                          case Ok(ranked) => Ranked(TopPhrases(ranked))
                          case Err(detail) => KeywordError(KeywordErrorPrefix + detail)
  {
  }

  /** Asking: the single answer is computed once, over the texts joined in
      order by single spaces. */
  lemma AnswerOverJoinedTexts(svc: Services, option: Option<string>, texts: seq<string>,
                              question: Option<string>)
    requires Runs(AskQuestion, option, texts, question)
    ensures Dispatch(svc, option, texts, question) ==
            Some(Answered(match svc.answer(question.value, Join(texts))
                          case Ok(answer) => answer
                          case Err(detail) => AnswerErrorPrefix + detail))
  {
  }

  /** Summarising calls only the summariser: services that agree on it give
      the same result, whatever their ranker and answerer do. */
  lemma SummarizeUsesOnlySummarizer(s1: Services, s2: Services, option: Option<string>,
                                      texts: seq<string>, question: Option<string>)
    requires SelectedMode(option) == Some(Summarize)
    requires forall t :: s1.summarize(t, SummarySettings()) == s2.summarize(t, SummarySettings())
    ensures Dispatch(s1, option, texts, question) == Dispatch(s2, option, texts, question)
  {
    assert Summaries(s1, texts) == Summaries(s2, texts);
  }

  /** Keyword extraction calls only the ranker. */
  lemma KeywordsUseOnlyRanker(s1: Services, s2: Services, option: Option<string>,
                              texts: seq<string>, question: Option<string>)
    requires SelectedMode(option) == Some(ExtractKeywords)
    requires forall t :: s1.rank(t) == s2.rank(t)
    ensures Dispatch(s1, option, texts, question) == Dispatch(s2, option, texts, question)
  {
    assert KeywordSlots(s1, texts) == KeywordSlots(s2, texts);
  }

  /** Asking calls only the answerer. */
  lemma AskUsesOnlyAnswerer(s1: Services, s2: Services, option: Option<string>,
                            texts: seq<string>, question: Option<string>)
    requires SelectedMode(option) == Some(AskQuestion)
    requires forall q, c :: s1.answer(q, c) == s2.answer(q, c)
    ensures Dispatch(s1, option, texts, question) == Dispatch(s2, option, texts, question)
  {
  }

  /** The summarisation loop of main.py:60-67. */
  method SummarizeArticles(svc: Services, texts: seq<string>) returns (summaries: seq<string>)
    ensures |summaries| == |texts|
    ensures forall k :: 0 <= k < |texts| ==> summaries[k] == SummaryOf(svc, texts[k])
  {
    summaries := [];
    for i := 0 to |texts|
      invariant |summaries| == i
      invariant forall k :: 0 <= k < i ==> summaries[k] == SummaryOf(svc, texts[k])
    {
      var summary: string;
      match svc.summarize(texts[i], SummarySettings()) {
        case Ok(s) => summary := s;
        case Err(detail) => summary := SummaryErrorPrefix + detail;
      }
      summaries := summaries + [summary];
    }
  }

  /** The keyword loop of main.py:71-79. */
  method ExtractAllKeywords(svc: Services, texts: seq<string>) returns (slots: seq<KeywordSlot>)
    ensures |slots| == |texts|
    ensures forall k :: 0 <= k < |texts| ==> slots[k] == KeywordsOf(svc, texts[k])
  {
    slots := [];
    for i := 0 to |texts|
      invariant |slots| == i
      invariant forall k :: 0 <= k < i ==> slots[k] == KeywordsOf(svc, texts[k])
    {
      var slot: KeywordSlot;
      match svc.rank(texts[i]) {
        case Ok(ranked) => slot := Ranked(TopPhrases(ranked));
        case Err(detail) => slot := KeywordError(KeywordErrorPrefix + detail);
      }
      slots := slots + [slot];
    }
  }
}
