# Article summariser request handler, modelled in Dafny

The web application takes up to three article URLs, a choice of analysis and an
optional question. Its handler, `index()` in `main.py`, does the following:

- keeps the URL fields that are filled in, in form order;
- fetches each page through `fetch_article`, which turns any exception into `None`;
- splits the fetched texts into valid articles and failed URLs;
- builds one diagnostic per failed URL;
- runs exactly one of three analyses over the valid articles:
  - summarise each article;
  - extract ranked keyword phrases from each article, first ten kept;
  - answer one question over all the articles joined by spaces.

This project models that handler. The fetcher, the summariser, the keyword
ranker and the question answerer are external libraries. Here they are total
function values in a `Services` record, and each returns `Ok(value)` or
`Err(detail)`. `Err` stands for a raised exception, and `detail` for its text.

Modules, one per step of the handler:

- `Wrappers` holds `Option` (Python's `None` or a value) and `Result` (the outcome of an external call).
- `Partition` holds Python truthiness of optional strings and the two list comprehensions that split the fetched articles.
- `Text` holds `" ".join(...)`.
- `Services` holds the collaborators, `fetch_article` and the fetch of every URL.
- `Diagnostics` holds the per-URL error message and the loop that builds the list of them.
- `Analysis` holds the three analyses, the summarisation and keyword loops, and the `if`/`elif` dispatch.
- `Orchestrator` holds the form, the request and the response. It has `Respond`, the whole handler as a function, and `Index`, the handler written step by step and proved equal to `Respond`. Its lemmas state the handler's promises.

Two behaviours of the source are modelled as written:

- The comment at main.py:50 says the valid articles are found by filtering out `None` values. But main.py:51 filters by truthiness, while main.py:52 lists failures by `is None`. So a page whose text comes back empty gets no diagnostic and is not a valid article either. `EmptyFetchIsSilentlyDropped` proves this, and `EveryUrlAccountedFor` proves every URL is accounted for when no page comes back empty.
- A request with no valid article, an unknown option, or a question request with no question gets no separate warning. `results` just stays `None` (main.py:28).

## Model

| member | source | states |
|---|---|---|
| Partition.Truthy | main.py:40-45 | Python's `if x:` on an optional string: true if and only if the value is neither `None` nor `""` (also used at main.py:51) |
| Text.Join | main.py:83 | joining no texts gives `""`, and a non-empty join starts with the first text |
| Services.SummarySettings | main.py:63 | the summariser is called with max_length 100, min_length 30 (so min ≤ max) and no sampling |
| Analysis.Label | main.py:59-82 | each option label belongs to exactly one mode: "Summarize Articles", "Extract Keywords", "Ask a Question" |
| Analysis.SummaryOf | main.py:62-66 | the summary when the summariser returns, otherwise "Error summarizing article: " followed by the error text |
| Analysis.KeywordsOf | main.py:74-78 | a ranked slot if and only if the ranker returns, holding at most ten phrases from the front of its list; otherwise "Error extracting keywords: " followed by the error text |
| Analysis.AnswerOf | main.py:83-88 | the answer over the joined texts when the answerer returns, otherwise "Error finding answer: " followed by the error text |
| Partition.EmptyFetchesCounted | main.py:51-52 | an article fetched as `""` makes the empty-fetch count positive |
| Partition.NoEmptyFetches | main.py:48-52 | when no URL fetches as `""`, the empty-fetch count is zero |
| Partition.Present | main.py:51 | the truthy entries, unwrapped and in order; never more entries than the input and never an empty text |
| Partition.FailedUrls | main.py:52 | the URLs beside a `None` article, stopping at the shorter list as `zip` does; each one is a submitted URL |
| Partition.EmptyFetches | main.py:51-52 | counts the articles fetched as `""`, at most one per article |
| Partition.PresentAppend | main.py:51 | filtering commutes with concatenation: order is kept and each entry is judged on its own |
| Partition.PresentMembership | main.py:51 | a text is kept if and only if some entry holds it and it is non-empty |
| Partition.FailedUrlsAppend | main.py:52 | the failed-URL filter commutes with concatenation of aligned article/URL lists |
| Partition.FailedUrlsMembership | main.py:52 | a URL is listed as failed if and only if it sits beside a `None` article |
| Partition.PartitionAccounting | main.py:51-52 | valid articles plus failed URLs plus empty fetches add up to the number of URLs |
| Text.JoinPlacesParts | main.py:83 | each text appears verbatim at its offset in the joined context, and a single space follows every text but the last |
| Text.JoinLength | main.py:83 | the joined context is the texts' lengths plus one separator between each pair of neighbours |
| Services.FetchArticle | main.py:14-22 | `None` exactly when the fetch raises, otherwise the fetched text; the exception never escapes |
| Services.FetchAll | main.py:48 | one result per URL, same length, and entry i is `fetch_article` of URL i |
| Diagnostics.ErrorMessage | main.py:56 | the message is the fixed prefix, then the URL, then the fixed suffix |
| Diagnostics.MessageNamesUrl | main.py:56 | the URL can be read back from its diagnostic |
| Diagnostics.ErrorMessageInjective | main.py:56 | distinct URLs give distinct diagnostics |
| Diagnostics.ErrorMessages | main.py:55-56 | one diagnostic per failed URL, in order, each naming its URL |
| Diagnostics.ErrorMessagesMention | main.py:55-56 | the diagnostic for u is in the list if and only if u is among the failed URLs |
| Diagnostics.ReportErrors | main.py:55-56 | the loop appends exactly one diagnostic per failed URL, in order |
| Analysis.SelectedMode | main.py:59-82 | a mode is selected if and only if the option equals that mode's label |
| Analysis.Summaries | main.py:60-67 | one entry per article, in order; entry k depends only on article k |
| Analysis.TopPhrases | main.py:76 | at most ten phrases; a prefix of the ranker's list in its own order; the whole list when it is shorter than ten |
| Analysis.TopPhrasesKeepsShortLists | main.py:76 | truncation leaves a list unchanged if and only if it has at most ten entries, and truncating twice equals truncating once |
| Analysis.KeywordSlots | main.py:72-79 | one slot per article, in order; slot k depends only on article k |
| Analysis.Dispatch | main.py:59-88 | there is a result if and only if some branch's guard holds, and the result's kind is the selected mode's |
| Analysis.NoResultCases | main.py:28 | no result when there is no valid article, when the option matches no label, or when asking without a question |
| Analysis.SummaryIsolation | main.py:60-67 | the summary list has one entry per valid article; entry k is the summary, or the error string when summarising article k raises |
| Analysis.KeywordIsolation | main.py:72-79 | the keyword list has one slot per valid article; slot k is the first at most ten ranked phrases, or the error string when ranking article k raises |
| Analysis.AnswerOverJoinedTexts | main.py:82-88 | asking gives one answer computed over the space-joined valid texts, or the error string when the answerer raises |
| Analysis.SummarizeUsesOnlySummarizer | main.py:59-67 | summarising gives the same result whatever the ranker and the answerer do |
| Analysis.KeywordsUseOnlyRanker | main.py:70-79 | extracting keywords gives the same result whatever the summariser and the answerer do |
| Analysis.AskUsesOnlyAnswerer | main.py:82-88 | asking gives the same result whatever the summariser and the ranker do |
| Analysis.SummarizeArticles | main.py:60-67 | the loop yields one entry per article, in order, each the summary or that article's error string |
| Analysis.ExtractAllKeywords | main.py:71-79 | the loop yields one slot per article, in order, each the truncated ranking or that article's error string |
| Orchestrator.CollectUrls | main.py:40-45 | at most three URLs are kept |
| Orchestrator.CollectUrlsInOrder | main.py:40-45 | the kept URLs are the truthy fields in the order url_1, url_2, url_3 |
| Orchestrator.CollectUrlsMembership | main.py:40-45 | a URL is kept if and only if it is non-empty and one of the three fields holds it |
| Orchestrator.Respond | main.py:26-90 | at most three URLs, one article per URL, at most one diagnostic per URL; a GET renders empty lists and no result |
| Orchestrator.Index | main.py:26-90 | the step-by-step handler computes exactly `Respond` |
| Orchestrator.ArticlesFollowUrls | main.py:48 | article i is `None` exactly when fetching URL i raises, and otherwise it is that fetch's text |
| Orchestrator.DiagnosticIffFetchFailed | main.py:52-56 | a URL's diagnostic is shown if and only if that URL was kept and its fetch raised |
| Orchestrator.EmptyFetchIsSilentlyDropped | main.py:51-52 | a page fetched as `""` gets no diagnostic and is no valid article, so fewer URLs are accounted for than submitted |
| Orchestrator.EveryUrlAccountedFor | main.py:51-56 | when no page is fetched as `""`, valid articles plus diagnostics equal the kept URLs |
| Orchestrator.SummarizeScenario | main.py:40-67 | a valid page, an empty field and an unreachable page, summarised, give two URLs, one diagnostic for the unreachable one and one summary |
| Orchestrator.EmptyQuestionScenario | main.py:82 | asking with an empty question yields no result even when a page is valid |

## Left out

- Flask routing, reading `request.form`, `render_template` and `app.run` are web I/O. The form is a value with three optional URLs, an optional option label and an optional question. A GET and a POST are the two request kinds.
- Page download and HTML parsing by `newspaper.Article` are network I/O. They are the abstract `fetch` function.
- The transformers summariser and question answerer, and their loading at start-up, are opaque neural inference. They are abstract `summarize` and `answer` functions. A failure to read `summary[0]['summary_text']` or `answer['answer']` happens inside the same `try`, so it counts as an `Err` of that routine.
- The RAKE ranker is a third-party library. It is an abstract `rank` function of the text alone. The reuse of one `Rake` object across articles is not modelled, and neither are scores beyond being opaque numbers.
- `print` logging and the text of exception messages are diagnostics only. Each exception is an opaque `detail` string appended to the fixed prefix.
- The collaborators are deterministic functions. Fetching the same URL twice in one request gives the same result here, where a real network might not.
- `except Exception` in the source lets errors that are not `Exception`s (such as `KeyboardInterrupt`) escape. The model has no such errors.
- Analysis.ExtractAllKeywords: the ranker object is built at main.py:71, outside the per-article `try` that starts at main.py:74. If building it raises, the exception leaves `index()` and the whole request fails. The model does not capture this: building the ranker always succeeds here.
- The page template `index.html` is presentation and is not part of this model.
