/** The per-URL diagnostics `index()` shows for URLs whose fetch failed
    (main.py:54-56). */
module Diagnostics {
  import opened Wrappers

  const Prefix := "URL '"
  const Suffix := "' is not valid or cannot be fetched."

  /** `f"URL '{url}' is not valid or cannot be fetched."` */
  function ErrorMessage(url: string): (m: string)
    ensures |m| == |Prefix| + |url| + |Suffix|
    ensures m[..|Prefix|] == Prefix && m[|m| - |Suffix|..] == Suffix
    ensures m[|Prefix|..|m| - |Suffix|] == url
  {
    Prefix + url + Suffix
  }

  /** The URL a diagnostic names, when the text has the diagnostic's shape. */
  function UrlOfMessage(m: string): Option<string>
  {
    if |m| >= |Prefix| + |Suffix| && m[..|Prefix|] == Prefix && m[|m| - |Suffix|..] == Suffix
    then Some(m[|Prefix|..|m| - |Suffix|])
    else None
  }

  /** Every diagnostic names its URL, and the URL can be read back from it. */
  lemma MessageNamesUrl(url: string)
    ensures UrlOfMessage(ErrorMessage(url)) == Some(url)
  {
  }

  /** Distinct URLs get distinct diagnostics. */
  lemma ErrorMessageInjective(u: string, v: string)
    ensures ErrorMessage(u) == ErrorMessage(v) ==> u == v
  {
  }

  /** One diagnostic per failed URL, in the order the URLs were submitted. */
  function ErrorMessages(failed: seq<string>): (r: seq<string>)
    ensures |r| == |failed|
    ensures forall k :: 0 <= k < |failed| ==> r[k] == ErrorMessage(failed[k])
  {
    if failed == [] then [] else [ErrorMessage(failed[0])] + ErrorMessages(failed[1..])
  }

  /** A text is among the diagnostics of `failed` exactly when it is the
      diagnostic of one of the failed URLs; in particular the diagnostic
      of `u` is there exactly when `u` failed. */
  lemma ErrorMessagesMention(failed: seq<string>, u: string)
    ensures ErrorMessage(u) in ErrorMessages(failed) <==> u in failed
  {
    var r := ErrorMessages(failed);
    if ErrorMessage(u) in r {
      var k :| 0 <= k < |r| && r[k] == ErrorMessage(u);
      ErrorMessageInjective(u, failed[k]);
    }
    if u in failed {
      var k :| 0 <= k < |failed| && failed[k] == u;
      assert r[k] == ErrorMessage(u);
    }
  }

  /** The loop at main.py:55-56: append one diagnostic per failed URL. */
  method ReportErrors(failed: seq<string>) returns (messages: seq<string>)
    ensures |messages| == |failed|
    ensures forall k :: 0 <= k < |failed| ==> messages[k] == ErrorMessage(failed[k])
  {
    messages := [];
    for i := 0 to |failed|
      invariant |messages| == i
      invariant forall k :: 0 <= k < i ==> messages[k] == ErrorMessage(failed[k])
    {
      messages := messages + [ErrorMessage(failed[i])];
    }
  }
}
