/** enrich/twitter.py: what `twitter_deep_osint` derives from the profile
    page of `https://x.com/<username>`. The GET is an input (`outcome`);
    the two regular-expression scans of the page text are the parameters
    `findEmails` and `findUrls`, each giving its matches in page order. */
module Twitter {
  import opened Text
  import opened Order
  import opened Probe
  import opened Schema

  /** The record returned when the request fails or the status is not
      200. */
  const DefaultResult := TwitterResult(false, "", [], "", [], [])

  /** `url.split("/")[2]`, or nothing where that raises `IndexError`:
      the authority of an `http(s)://` URL, port and userinfo included. */
  function Authority(url: string): Option<string>
  {
    var parts := Split(url, '/');
    if |parts| > 2 then Some(parts[2]) else None
  }

  /** The distinct authorities of a list of URLs. */
  ghost function Domains(urls: seq<string>): set<string>
  {
    set u | u in urls && Authority(u).Some? :: Authority(u).value
  }

  /** The three address guesses for one domain. */
  function PatternsFor(username: string, domain: string): seq<string>
  {
    ["first@" + domain, "first.last@" + domain, username + "@" + domain]
  }

  ghost function PatternsForAll(username: string, domains: set<string>): set<string>
  {
    set d, p | d in domains && p in PatternsFor(username, d) :: p
  }

  /** The URL matches kept: those not containing `x.com`. */
  ghost function KeptUrls(matches: seq<string>): set<string>
  {
    set m | m in matches && !Contains(m, "x.com")
  }

  lemma KeptUrlsStep(matches: seq<string>, i: int)
    requires 0 <= i < |matches|
    ensures KeptUrls(matches[..i + 1])
         == KeptUrls(matches[..i]) + (if Contains(matches[i], "x.com") then {} else {matches[i]})
  {
    assert matches[..i + 1] == matches[..i] + [matches[i]];
  }

  lemma DomainsStep(urls: seq<string>, i: int)
    requires 0 <= i < |urls|
    ensures Domains(urls[..i + 1])
         == Domains(urls[..i]) + (if Authority(urls[i]).Some? then {Authority(urls[i]).value} else {})
  {
    assert urls[..i + 1] == urls[..i] + [urls[i]];
  }

  lemma PatternsForAllStep(username: string, domains: set<string>, d: string)
    ensures PatternsForAll(username, domains + {d})
         == PatternsForAll(username, domains) + Elems(PatternsFor(username, d))
  {
    forall p | p in PatternsForAll(username, domains + {d})
      ensures p in PatternsForAll(username, domains) + Elems(PatternsFor(username, d))
    {
      var e :| e in domains + {d} && p in PatternsFor(username, e);
      if e != d {
        assert p in PatternsForAll(username, domains);
      }
    }
  }

  /** The URL loop: every match that does not contain `x.com`, in order. */
  method FilterUrls(matches: seq<string>) returns (urls: seq<string>)
    ensures Elems(urls) == KeptUrls(matches)
    ensures forall u :: u in urls ==> !Contains(u, "x.com")
  {
    urls := [];
    var i := 0;
    assert KeptUrls(matches[..0]) == {};
    while i < |matches|
      invariant 0 <= i <= |matches|
      invariant Elems(urls) == KeptUrls(matches[..i])
      invariant forall u :: u in urls ==> !Contains(u, "x.com")
    {
      KeptUrlsStep(matches, i);
      if !Contains(matches[i], "x.com") {
        ElemsConcat(urls, [matches[i]]);
        urls := urls + [matches[i]];
      }
      i := i + 1;
    }
    assert matches[..i] == matches;
  }

  /** The domain loop: the authority of every URL that has one. */
  method CollectDomains(urls: seq<string>) returns (domains: set<string>)
    ensures domains == Domains(urls)
  {
    domains := {};
    var i := 0;
    assert Domains(urls[..0]) == {};
    while i < |urls|
      invariant 0 <= i <= |urls|
      invariant domains == Domains(urls[..i])
    {
      DomainsStep(urls, i);
      var domain := Authority(urls[i]);
      if domain.Some? {
        domains := domains + {domain.value};
      }
      i := i + 1;
    }
    assert urls[..i] == urls;
  }

  /** The pattern loop: three guesses per domain, in set iteration
      order. */
  method ExpandPatterns(username: string, domains: set<string>) returns (patterns: seq<string>)
    ensures |patterns| == 3 * |domains|
    ensures Elems(patterns) == PatternsForAll(username, domains)
  {
    patterns := [];
    var pending := domains;
    ghost var done: set<string> := {};
    while pending != {}
      invariant pending + done == domains && pending !! done
      invariant |patterns| == 3 * |done|
      invariant Elems(patterns) == PatternsForAll(username, done)
      decreases |pending|
    {
      var d :| d in pending;
      ElemsConcat(patterns, PatternsFor(username, d));
      PatternsForAllStep(username, done, d);
      patterns := patterns + PatternsFor(username, d);
      pending := pending - {d};
      done := done + {d};
    }
  }

  /** `twitter_deep_osint` after the GET. A raised request or a status
      other than 200 gives the default record; otherwise the profile exists,
      `emails` are the distinct email matches, `urls` the distinct URL
      matches without `x.com` in ascending order, and `email_patterns` holds
      three guesses for each distinct authority of those URLs. The bio and
      pinned text are never filled in. */
  method TwitterDeepOsint(username: string, outcome: FetchOutcome,
                          findEmails: string -> seq<string>, findUrls: string -> seq<string>)
    returns (result: TwitterResult)
    ensures !(outcome.Response? && outcome.status == 200) ==> result == DefaultResult
    ensures outcome.Response? && outcome.status == 200 ==>
      && result.found
      && result.bio == "" && result.pinnedText == ""
      && NoDup(result.emails) && Elems(result.emails) == Elems(findEmails(outcome.text))
      && StrictlySorted(result.urls) && Elems(result.urls) == KeptUrls(findUrls(outcome.text))
      && |result.emailPatterns| == 3 * |Domains(result.urls)|
      && Elems(result.emailPatterns) == PatternsForAll(username, Domains(result.urls))
  {
    result := DefaultResult;
    if outcome.Raised? {
      return;
    }
    if outcome.status != 200 {
      return;
    }
    var text := outcome.text;
    var emails := SortDistinct(findEmails(text));
    SortedNoDup(emails);
    var urls := FilterUrls(findUrls(text));
    urls := SortDistinct(urls);
    var domains := CollectDomains(urls);
    var patterns := ExpandPatterns(username, domains);
    result := result.(found := true, emails := emails, urls := urls, emailPatterns := patterns);
  }

  /** Any URL in the result has its authority among the pattern domains,
      and each of its three guesses is in `email_patterns`. */
  lemma PatternsCoverEveryUrl(username: string, urls: seq<string>, patterns: seq<string>, u: string)
    requires Elems(patterns) == PatternsForAll(username, Domains(urls))
    requires u in urls && Authority(u).Some?
    ensures forall p :: p in PatternsFor(username, Authority(u).value) ==> p in patterns
  {
    assert Authority(u).value in Domains(urls);
    forall p | p in PatternsFor(username, Authority(u).value) ensures p in patterns {
      assert p in PatternsForAll(username, Domains(urls));
      assert p in Elems(patterns);
    }
  }

  /** The filter is a substring test, so it also drops links to hosts
      whose name merely contains `x.com`, such as `www.dropbox.com`. */
  lemma SubstringFilterDropsDropbox()
    ensures "https://www.dropbox.com/s/abc" !in KeptUrls(["https://www.dropbox.com/s/abc"])
  {
    var u := "https://www.dropbox.com/s/abc";
    assert u[18..23] == "x.com";
    assert OccursAt(u, "x.com", 18);
    ContainsAt(u, "x.com");
  }

  /** For `scheme//authority/path` the "domain" is the whole authority,
      whatever it holds besides `/`: a port (`host:8443`) or userinfo
      (`me@host`) stays in it. */
  lemma AuthorityOfUrl(scheme: string, authority: string, path: string)
    requires '/' !in scheme && '/' !in authority
    ensures Authority(scheme + "//" + authority + "/" + path) == Some(authority)
  {
    var rest := authority + "/" + path;
    assert scheme + "//" + authority + "/" + path == scheme + "/" + ("" + "/" + rest);
    SplitAfterWord(scheme, "" + "/" + rest, '/');
    SplitAfterWord("", rest, '/');
    SplitAfterWord(authority, path, '/');
  }
}
