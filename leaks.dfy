/** enrich/leaks.py: passive leak signals, one Bing search per query
    template, counted when the result page mentions the username. The GETs
    are an input: `fetch` gives the outcome of a GET of each URL. */
module Leaks {
  import opened Text
  import opened Probe
  import opened Schema

  /** `SEARCH_QUERIES`, character for character (the last two keep their
      stray closing quote). */
  const SearchQueries: seq<string> := [
    "site:pastebin.com {u}",
    "site:ghostbin.com {u}",
    "site:github.com {u}",
    "site:reddit.com {u}",
    "\"{u}\" \"password\"\"",
    "\"{u}\" \"leak\"\""
  ]

  /** `q.format(u=username)`. */
  function Query(template: string, username: string): string
  {
    FormatU(template, username)
  }

  /** The search URL: spaces in the query become `+`. */
  function QueryUrl(query: string): (url: string)
    ensures StartsWith(url, "https://www.bing.com/search?q=")
    ensures ' ' !in url[|"https://www.bing.com/search?q="|..]
    ensures |url| == |"https://www.bing.com/search?q="| + |query|
    ensures forall i :: 0 <= i < |query| ==>
      url[|"https://www.bing.com/search?q="| + i] == (if query[i] == ' ' then '+' else query[i])
  {
    var url := "https://www.bing.com/search?q=" + ReplaceChar(query, ' ', '+');
    assert url[..|"https://www.bing.com/search?q="|] == "https://www.bing.com/search?q=";
    assert url[|"https://www.bing.com/search?q="|..] == ReplaceChar(query, ' ', '+');
    url
  }

  /** A search counts when it answered 200 and the page text contains the
      username, both lowercased. */
  predicate Hit(username: string, outcome: FetchOutcome)
  {
    outcome.Response? && outcome.status == 200
    && Contains(LowerAscii(outcome.text), LowerAscii(username))
  }

  /** The signals the templates give, in template order. */
  function LeakSpec(username: string, fetch: string -> FetchOutcome, templates: seq<string>): seq<LeakSignal>
    decreases |templates|
  {
    if templates == [] then []
    else
      var earlier := LeakSpec(username, fetch, templates[..|templates| - 1]);
      var query := Query(templates[|templates| - 1], username);
      if Hit(username, fetch(QueryUrl(query))) then earlier + [LeakSignal(query, "bing")] else earlier
  }

  /** `check_leak_signals`: a raised request or a status other than 200
      skips the template; a 200 page that mentions the username adds a
      `{query, engine: "bing"}` signal. */
  method CheckLeakSignals(username: string, fetch: string -> FetchOutcome) returns (signals: seq<LeakSignal>)
    ensures signals == LeakSpec(username, fetch, SearchQueries)
  {
    signals := [];
    var i := 0;
    while i < |SearchQueries|
      invariant 0 <= i <= |SearchQueries|
      invariant signals == LeakSpec(username, fetch, SearchQueries[..i])
    {
      assert SearchQueries[..i + 1][..i] == SearchQueries[..i];
      var query := Query(SearchQueries[i], username);
      var url := QueryUrl(query);
      var outcome := fetch(url);
      if outcome.Raised? {
        i := i + 1;
        continue;
      }
      if outcome.status != 200 {
        i := i + 1;
        continue;
      }
      if Contains(LowerAscii(outcome.text), LowerAscii(username)) {
        signals := signals + [LeakSignal(query, "bing")];
      }
      i := i + 1;
    }
    assert SearchQueries[..i] == SearchQueries;
  }

  /** At most one signal per template. */
  lemma {:induction false} AtMostOnePerTemplate(username: string, fetch: string -> FetchOutcome, templates: seq<string>)
    ensures |LeakSpec(username, fetch, templates)| <= |templates|
    decreases |templates|
  {
    if templates != [] {
      AtMostOnePerTemplate(username, fetch, templates[..|templates| - 1]);
    }
  }

  /** A signal is present exactly when some template's search hit; every
      signal names the Bing engine and the formatted query. */
  lemma {:induction false} SignalIffHit(username: string, fetch: string -> FetchOutcome, templates: seq<string>, s: LeakSignal)
    ensures s in LeakSpec(username, fetch, templates)
        <==> exists i :: 0 <= i < |templates| && s == LeakSignal(Query(templates[i], username), "bing")
                      && Hit(username, fetch(QueryUrl(Query(templates[i], username))))
    decreases |templates|
  {
    if templates != [] {
      var n := |templates| - 1;
      var prefix := templates[..n];
      SignalIffHit(username, fetch, prefix, s);
      if exists i :: 0 <= i < |templates| && s == LeakSignal(Query(templates[i], username), "bing")
                  && Hit(username, fetch(QueryUrl(Query(templates[i], username)))) {
        var i :| 0 <= i < |templates| && s == LeakSignal(Query(templates[i], username), "bing")
                 && Hit(username, fetch(QueryUrl(Query(templates[i], username))));
        if i < n {
          assert prefix[i] == templates[i];
        }
      }
      if s in LeakSpec(username, fetch, prefix) {
        var i :| 0 <= i < |prefix| && s == LeakSignal(Query(prefix[i], username), "bing")
                 && Hit(username, fetch(QueryUrl(Query(prefix[i], username))));
        assert templates[i] == prefix[i];
      }
    }
  }

  /** When every search fails (raises or answers other than 200), there
      are no signals and nothing is raised. */
  lemma {:induction false} AllFailuresGiveNoSignals(username: string, fetch: string -> FetchOutcome, templates: seq<string>)
    requires forall i :: 0 <= i < |templates| ==>
      var outcome := fetch(QueryUrl(Query(templates[i], username)));
      outcome.Raised? || outcome.status != 200
    ensures LeakSpec(username, fetch, templates) == []
    decreases |templates|
  {
    if templates != [] {
      var n := |templates| - 1;
      assert forall i :: 0 <= i < n ==> templates[..n][i] == templates[i];
      AllFailuresGiveNoSignals(username, fetch, templates[..n]);
    }
  }

  /** The first template formats to `site:pastebin.com <username>`. */
  lemma PastebinQuery(username: string)
    ensures Query(SearchQueries[0], username) == "site:pastebin.com " + username
  {
    FormatOneField("site:pastebin.com ", "", username);
    assert "site:pastebin.com " + "{u}" + "" == SearchQueries[0];
  }

  /** The password template keeps its stray trailing quote. */
  lemma PasswordQuery(username: string)
    ensures Query(SearchQueries[4], username) == "\"" + username + "\" \"password\"\""
  {
    FormatOneField("\"", "\" \"password\"\"", username);
    assert "\"" + "{u}" + "\" \"password\"\"" == SearchQueries[4];
  }
}
