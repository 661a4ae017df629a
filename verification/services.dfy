/** The external routines `index()` calls, and `fetch_article`, which wraps
    the page fetcher (main.py:14-22, main.py:48). */
module Services {
  import opened Wrappers

  /** One ranked phrase from the keyword ranker: a score and the phrase
      itself. The score is opaque: it is never compared or re-sorted. */
  datatype ScoredPhrase = ScoredPhrase(score: real, phrase: string)

  /** The decoding parameters handed to the summariser. */
  datatype SummaryOptions = SummaryOptions(maxLength: nat, minLength: nat, doSample: bool)

  /** `max_length=100, min_length=30, do_sample=False` (main.py:63): a
      summary of 30 to 100 tokens, decoded greedily. */
  function SummarySettings(): (o: SummaryOptions)
    ensures o.minLength <= o.maxLength
    ensures o.maxLength == 100 && o.minLength == 30 && !o.doSample
  {
    SummaryOptions(100, 30, false)
  }

  /** The collaborators, each a deterministic routine that either returns a
      value or raises:
      - `fetch`: download and parse the page at a URL, giving its text;
      - `summarize`: a summary of a text under the given options;
      - `rank`: the ranker's (score, phrase) list for a text, in its own order;
      - `answer`: the answer to a question (first) over a context (second). */
  datatype Services = Services(
    fetch: string -> Result<string>,
    summarize: (string, SummaryOptions) -> Result<string>,
    rank: string -> Result<seq<ScoredPhrase>>,
    answer: (string, string) -> Result<string>)

  /** `fetch_article(url)`: the page text, or `None` when fetching raises;
      the exception never escapes. */
  function FetchArticle(fetch: string -> Result<string>, url: string): (r: Option<string>)
    ensures r.None? <==> fetch(url).Err?
    ensures r.Some? ==> fetch(url) == Ok(r.value)
  {
    match fetch(url)
    case Ok(text) => Some(text)
    case Err(_) => None
  }

  /** `[fetch_article(url) for url in urls]`: one result per URL, in order. */
  function FetchAll(fetch: string -> Result<string>, urls: seq<string>): (r: seq<Option<string>>)
    ensures |r| == |urls|
    ensures forall i :: 0 <= i < |urls| ==> r[i] == FetchArticle(fetch, urls[i])
  {
    if urls == [] then [] else [FetchArticle(fetch, urls[0])] + FetchAll(fetch, urls[1..])
  }
}
