/** Python truthiness of optional strings, and the two filters `index()`
    applies to the fetched articles (main.py:51-52). */
module Partition {
  import opened Wrappers

  /** `if x:` on a value that is `None` or a string: false for `None` and for `""`. */
  predicate Truthy(x: Option<string>)
    ensures Truthy(x) <==> x != None && x != Some("")
  {
    x.Some? && x.value != ""
  }

  /** The truthy entries, unwrapped, in their original order:
      `[x for x in xs if x]`. Used both for the submitted URL fields and
      for the fetched article texts. */
  function Present(xs: seq<Option<string>>): (r: seq<string>)
    ensures |r| <= |xs|
    ensures forall k :: 0 <= k < |r| ==> r[k] != ""
  {
    if xs == [] then []
    else if Truthy(xs[0]) then [xs[0].value] + Present(xs[1..])
    else Present(xs[1..])
  }

  /** The URLs paired with a `None` article, in order:
      `[url for article, url in zip(articles, urls) if article is None]`
      (`zip` stops at the shorter of the two). */
  function FailedUrls(articles: seq<Option<string>>, urls: seq<string>): (r: seq<string>)
    ensures |r| <= |articles| && |r| <= |urls|
    ensures forall u :: u in r ==> u in urls
  {
    if articles == [] || urls == [] then []
    else if articles[0].None? then [urls[0]] + FailedUrls(articles[1..], urls[1..])
    else FailedUrls(articles[1..], urls[1..])
  }

  /** How many articles were fetched as the empty text `""`. */
  function EmptyFetches(articles: seq<Option<string>>): (n: nat)
    ensures n <= |articles|
  {
    if articles == [] then 0
    else (if articles[0] == Some("") then 1 else 0) + EmptyFetches(articles[1..])
  }

  /** An article fetched as `""` is counted. */
  lemma {:induction false} EmptyFetchesCounted(articles: seq<Option<string>>, i: nat)
    requires i < |articles| && articles[i] == Some("")
    ensures EmptyFetches(articles) > 0
  {
    if i > 0 {
      EmptyFetchesCounted(articles[1..], i - 1);
    }
  }

  /** When the articles are the fetches of the URLs and no URL fetches as
      `""`, nothing is counted. */
  lemma {:induction false} NoEmptyFetches(articles: seq<Option<string>>, urls: seq<string>,
                                          fetch: string -> Result<string>)
    requires |articles| == |urls|
    requires forall i :: 0 <= i < |urls| ==> articles[i] == (match fetch(urls[i])
                                                             case Ok(text) => Some(text)
                                                             case Err(_) => None)
    requires forall u :: u in urls ==> fetch(u) != Ok("")
    ensures EmptyFetches(articles) == 0
  {
    if articles != [] {
      assert urls[0] in urls;
      NoEmptyFetches(articles[1..], urls[1..], fetch);
    }
  }

  /** Filtering commutes with concatenation: order is preserved and
      each entry is judged on its own. */
  lemma {:induction false} PresentAppend(xs: seq<Option<string>>, ys: seq<Option<string>>)
    ensures Present(xs + ys) == Present(xs) + Present(ys)
  {
    if xs == [] {
      assert xs + ys == ys;
    } else {
      assert (xs + ys)[0] == xs[0];
      assert (xs + ys)[1..] == xs[1..] + ys;
      PresentAppend(xs[1..], ys);
    }
  }

  /** A text is kept exactly when some entry holds it and it is non-empty. */
  lemma {:induction false} PresentMembership(xs: seq<Option<string>>, t: string)
    ensures t in Present(xs) <==> exists i :: 0 <= i < |xs| && xs[i] == Some(t) && t != ""
  {
    if xs != [] {
      PresentMembership(xs[1..], t);
      if t in Present(xs) {
        if xs[0] != Some(t) || t == "" {
          assert t in Present(xs[1..]);
          var j :| 0 <= j < |xs[1..]| && xs[1..][j] == Some(t) && t != "";
          assert xs[j + 1] == Some(t);
        }
      }
      if exists i :: 0 <= i < |xs| && xs[i] == Some(t) && t != "" {
        var i :| 0 <= i < |xs| && xs[i] == Some(t) && t != "";
        if i > 0 {
          assert xs[1..][i - 1] == Some(t);
        }
      }
    }
  }

  /** The failed-URL filter commutes with concatenation of aligned pairs. */
  lemma {:induction false} FailedUrlsAppend(a1: seq<Option<string>>, u1: seq<string>,
                                            a2: seq<Option<string>>, u2: seq<string>)
    requires |a1| == |u1|
    ensures FailedUrls(a1 + a2, u1 + u2) == FailedUrls(a1, u1) + FailedUrls(a2, u2)
  {
    if a1 == [] {
      assert a1 + a2 == a2 && u1 + u2 == u2;
    } else {
      assert (a1 + a2)[0] == a1[0] && (u1 + u2)[0] == u1[0];
      assert (a1 + a2)[1..] == a1[1..] + a2;
      assert (u1 + u2)[1..] == u1[1..] + u2;
      FailedUrlsAppend(a1[1..], u1[1..], a2, u2);
    }
  }

  /** A URL is reported failed exactly when it sits beside a `None` article. */
  lemma {:induction false} FailedUrlsMembership(articles: seq<Option<string>>, urls: seq<string>, u: string)
    ensures u in FailedUrls(articles, urls) <==>
            exists i :: 0 <= i < |articles| && i < |urls| && articles[i].None? && urls[i] == u
  {
    if articles != [] && urls != [] {
      FailedUrlsMembership(articles[1..], urls[1..], u);
      if u in FailedUrls(articles, urls) {
        if !(articles[0].None? && urls[0] == u) {
          assert u in FailedUrls(articles[1..], urls[1..]);
          var j :| 0 <= j < |articles[1..]| && j < |urls[1..]| && articles[1..][j].None? && urls[1..][j] == u;
          assert articles[j + 1].None? && urls[j + 1] == u;
        }
      }
      if exists i :: 0 <= i < |articles| && i < |urls| && articles[i].None? && urls[i] == u {
        var i :| 0 <= i < |articles| && i < |urls| && articles[i].None? && urls[i] == u;
        if i > 0 {
          assert articles[1..][i - 1].None? && urls[1..][i - 1] == u;
        }
      }
    }
  }

  /** Every article is a valid text, a failure, or the empty text: the three
      counts add up to the number of URLs. */
  lemma {:induction false} PartitionAccounting(articles: seq<Option<string>>, urls: seq<string>)
    requires |articles| == |urls|
    ensures |Present(articles)| + |FailedUrls(articles, urls)| + EmptyFetches(articles) == |urls|
  {
    if articles != [] {
      PartitionAccounting(articles[1..], urls[1..]);
    }
  }
}
