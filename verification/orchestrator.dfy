/** `index()`: one request through URL collection, fetching, partition,
    diagnostics and the analysis dispatch (main.py:25-90). */
module Orchestrator {
  import opened Wrappers
  import opened Partition
  import opened Services
  import opened Diagnostics
  import opened Analysis

  /** The submitted form fields; a field the form lacks is `None`. */
  datatype Form = Form(option: Option<string>, url1: Option<string>, url2: Option<string>,
                       url3: Option<string>, question: Option<string>)

  /** A GET shows the empty page; a POST carries a form. */
  datatype Request = Get | Post(form: Form)

  /** What the page is rendered with (main.py:90). */
  datatype Response = Response(results: Option<Results>, articles: seq<Option<string>>,
                               urls: seq<string>, errorMessages: seq<string>)

  /** The three URL fields in form order. */
  function UrlFields(form: Form): seq<Option<string>>
  {
    [form.url1, form.url2, form.url3]
  }

  /** The URLs kept for the request (main.py:40-45). */
  function CollectUrls(form: Form): (urls: seq<string>)
    ensures |urls| <= 3
  {
    Present(UrlFields(form))
  }

  /** The whole of `index()` as one function of the request and the
      collaborators. */
  function Respond(svc: Services, req: Request): (resp: Response)
    ensures |resp.urls| <= 3
    ensures |resp.articles| == |resp.urls|
    ensures |resp.errorMessages| <= |resp.urls|
    ensures req.Get? ==> resp == Response(None, [], [], [])
  {
    match req
    case Get => Response(None, [], [], [])
    case Post(form) =>
      var urls := CollectUrls(form);
      var articles := FetchAll(svc.fetch, urls);
      Response(Dispatch(svc, form.option, Present(articles), form.question),
               articles, urls, ErrorMessages(FailedUrls(articles, urls)))
  }

  /** The handler, step by step as main.py:26-90 does it. */
  method Index(svc: Services, req: Request) returns (resp: Response)
    ensures resp == Respond(svc, req)
  {
    var urls: seq<string> := [];
    var results: Option<Results> := None;
    var articles: seq<Option<string>> := [];
    var errorMessages: seq<string> := [];

    if req.Post? {
      var form := req.form;
      if Truthy(form.url1) { urls := urls + [form.url1.value]; }
      if Truthy(form.url2) { urls := urls + [form.url2.value]; }
      if Truthy(form.url3) { urls := urls + [form.url3.value]; }
      assert urls == CollectUrls(form) by { CollectUrlsInOrder(form); }

      articles := FetchAll(svc.fetch, urls);
      var validArticles := Present(articles);
      var invalidUrls := FailedUrls(articles, urls);

      errorMessages := ReportErrors(invalidUrls);
      assert errorMessages == ErrorMessages(invalidUrls);

      if form.option == Some(Label(Summarize)) && |validArticles| > 0 {
        var summaries := SummarizeArticles(svc, validArticles);
        assert summaries == Summaries(svc, validArticles);
        results := Some(SummaryResults(summaries));
      } else if form.option == Some(Label(ExtractKeywords)) && |validArticles| > 0 {
        var keywords := ExtractAllKeywords(svc, validArticles);
        assert keywords == KeywordSlots(svc, validArticles);
        results := Some(KeywordResults(keywords));
      } else if form.option == Some(Label(AskQuestion)) && |validArticles| > 0 && Truthy(form.question) {
        results := Some(Answered(AnswerOf(svc, form.question.value, validArticles)));
      }
    }
    resp := Response(results, articles, urls, errorMessages);
  }

  /** The kept URLs are the truthy fields, each judged on its own, in the
      order url_1, url_2, url_3. */
  lemma CollectUrlsInOrder(form: Form)
    ensures CollectUrls(form) ==
            (if Truthy(form.url1) then [form.url1.value] else []) +
            (if Truthy(form.url2) then [form.url2.value] else []) +
            (if Truthy(form.url3) then [form.url3.value] else [])
  {
    PresentAppend([form.url1], [form.url2, form.url3]);
    PresentAppend([form.url2], [form.url3]);
    assert [form.url1] + [form.url2, form.url3] == UrlFields(form);
    assert [form.url2] + [form.url3] == [form.url2, form.url3];
  }

  /** A URL is kept exactly when one of the three fields holds it and it is
      non-empty. */
  lemma CollectUrlsMembership(form: Form, u: string)
    ensures u in CollectUrls(form) <==>
            u != "" && (form.url1 == Some(u) || form.url2 == Some(u) || form.url3 == Some(u))
  {
    PresentMembership(UrlFields(form), u);
    if u != "" && form.url1 == Some(u) { assert UrlFields(form)[0] == Some(u); }
    if u != "" && form.url2 == Some(u) { assert UrlFields(form)[1] == Some(u); }
    if u != "" && form.url3 == Some(u) { assert UrlFields(form)[2] == Some(u); }
  }

  /** One fetch result per kept URL, in order; `None` exactly where the
      fetch raised. */
  lemma ArticlesFollowUrls(svc: Services, form: Form, i: nat)
    requires i < |Respond(svc, Post(form)).urls|
    ensures var resp := Respond(svc, Post(form));
            |resp.articles| == |resp.urls| &&
            (resp.articles[i].None? <==> svc.fetch(resp.urls[i]).Err?) &&
            (resp.articles[i].Some? ==> svc.fetch(resp.urls[i]) == Ok(resp.articles[i].value))
  {
  }

  /** A URL's diagnostic is shown exactly when that URL was kept and its
      fetch raised. */
  lemma DiagnosticIffFetchFailed(svc: Services, form: Form, u: string)
    ensures var resp := Respond(svc, Post(form));
            ErrorMessage(u) in resp.errorMessages <==> u in resp.urls && svc.fetch(u).Err?
  {
    var resp := Respond(svc, Post(form));
    ErrorMessagesMention(FailedUrls(resp.articles, resp.urls), u);
    FailedUrlsMembership(resp.articles, resp.urls, u);
    if u in resp.urls && svc.fetch(u).Err? {
      var i :| 0 <= i < |resp.urls| && resp.urls[i] == u;
      assert resp.articles[i].None?;
    }
  }

  /** A page that fetches as the empty text is dropped without a word: it is
      not a valid article and no diagnostic names it, so fewer URLs are
      accounted for than were submitted. */
  lemma EmptyFetchIsSilentlyDropped(svc: Services, form: Form, u: string)
    requires u in CollectUrls(form) && svc.fetch(u) == Ok("")
    ensures var resp := Respond(svc, Post(form));
            ErrorMessage(u) !in resp.errorMessages &&
            "" !in Present(resp.articles) &&
            |Present(resp.articles)| + |resp.errorMessages| < |resp.urls|
  {
    var resp := Respond(svc, Post(form));
    DiagnosticIffFetchFailed(svc, form, u);
    PartitionAccounting(resp.articles, resp.urls);
    var i :| 0 <= i < |resp.urls| && resp.urls[i] == u;
    assert resp.articles[i] == Some("");
    EmptyFetchesCounted(resp.articles, i);
  }

  /** When no page fetches as the empty text, every kept URL yields either a
      valid article or a diagnostic. */
  lemma EveryUrlAccountedFor(svc: Services, form: Form)
    requires forall u :: u in CollectUrls(form) ==> svc.fetch(u) != Ok("")
    ensures var resp := Respond(svc, Post(form));
            |Present(resp.articles)| + |resp.errorMessages| == |resp.urls|
  {
    var resp := Respond(svc, Post(form));
    PartitionAccounting(resp.articles, resp.urls);
    NoEmptyFetches(resp.articles, resp.urls, svc.fetch);
  }

  /** The example of a valid page, an empty field and an unreachable page,
      summarised: one diagnostic for the unreachable page and one summary,
      for the valid page only. */
  lemma SummarizeScenario(svc: Services, text: string, summary: string)
    requires svc.fetch("valid-A") == Ok(text) && text != ""
    requires svc.fetch("unreachable-B").Err?
    requires svc.summarize(text, SummarySettings()) == Ok(summary)
    ensures var resp := Respond(svc, Post(Form(Some("Summarize Articles"), Some("valid-A"), Some(""),
                                              Some("unreachable-B"), None)));
            resp.urls == ["valid-A", "unreachable-B"] &&
            resp.articles == [Some(text), None] &&
            resp.errorMessages == [ErrorMessage("unreachable-B")] &&
            resp.results == Some(SummaryResults([summary]))
  {
    var form := Form(Some("Summarize Articles"), Some("valid-A"), Some(""), Some("unreachable-B"), None);
    var urls := ["valid-A", "unreachable-B"];
    CollectUrlsInOrder(form);
    assert CollectUrls(form) == urls;
    var articles := FetchAll(svc.fetch, urls);
    assert articles == [Some(text), None];
    assert Present(articles) == [text] by {
      PresentAppend([Some(text)], [None]);
      assert [Some(text)] + [None] == articles;
    }
    assert FailedUrls(articles, urls) == ["unreachable-B"] by {
      FailedUrlsAppend([Some(text)], ["valid-A"], [None], ["unreachable-B"]);
      assert [Some(text)] + [None] == articles;
      assert ["valid-A"] + ["unreachable-B"] == urls;
    }
    assert ErrorMessages(["unreachable-B"]) == [ErrorMessage("unreachable-B")];
    assert Summaries(svc, [text]) == [summary];
  }

  /** Asking with an empty question computes nothing, even with a valid page. */
  lemma EmptyQuestionScenario(svc: Services, text: string)
    requires svc.fetch("valid-A") == Ok(text)
    ensures Respond(svc, Post(Form(Some("Ask a Question"), Some("valid-A"), None, None,
                                   Some("")))).results == None
  {
  }
}
