/** enrich/usernames.py: the username variants used for dorks and
    scoring, and the presence check of one username on six platforms. */
module Usernames {
  import opened Text
  import opened Order
  import opened Probe
  import opened Schema

  predicate IsUnderscore(c: char)
  {
    c == '_'
  }

  /** `username.strip("_").replace(".", "")`: underscores stripped from
      both ends first, then every dot removed. */
  function VariantBase(username: string): (base: string)
    ensures '.' !in base
    ensures forall c :: c in base ==> c in username
    ensures exists lead, mid, trail ::
      Trimmed(username, lead, mid, trail, IsUnderscore) && base == Without(mid, '.')
  {
    StripSplits(username, IsUnderscore);
    Without(Strip(username, IsUnderscore), '.')
  }

  /** The eight forms `generate_variants` puts in its set. */
  function VariantForms(username: string): seq<string>
  {
    var base := VariantBase(username);
    [ username,
      base,
      "_" + base + "_",
      "__" + base + "__",
      base + "_",
      "_" + base,
      Without(username, '.'),
      Without(username, '_') ]
  }

  /** `generate_variants`: the eight forms, deduplicated and sorted. The
      result always holds the username itself and between one and eight
      strings. */
  function GenerateVariants(username: string): (variants: seq<string>)
    ensures StrictlySorted(variants)
    ensures Elems(variants) == Elems(VariantForms(username))
    ensures username in variants
    ensures 1 <= |variants| <= 8
  {
    var variants := SortDistinct(VariantForms(username));
    assert username in Elems(VariantForms(username));
    assert username in Elems(variants);
    variants
  }

  /** The result depends only on the set of forms: it is the one strictly
      ascending list with exactly these elements. */
  lemma GenerateVariantsCanonical(username: string, xs: seq<string>)
    requires StrictlySorted(xs) && Elems(xs) == Elems(VariantForms(username))
    ensures xs == GenerateVariants(username)
  {
    SortedUnique(xs, GenerateVariants(username));
  }

  /** Stripping happens before the dots are removed, so a dot shielding an
      underscore leaves it in the base: `"._x"` has base `"_x"`. */
  lemma StripBeforeDotRemoval()
    ensures VariantBase("._x") == "_x"
  {
    assert Strip("._x", IsUnderscore) == "._x";
    assert Without("._x", '.') == "_x" by {
      assert "._x"[1..] == "_x";
      assert Without("_x", '.') == "_x";
    }
  }

  /** The six platforms probed, in the order of the source's dictionary. */
  function PlatformUrls(username: string): seq<(string, string)>
  {
    [ ("github", "https://github.com/" + username),
      ("twitter", "https://x.com/" + username),
      ("reddit", "https://www.reddit.com/user/" + username),
      ("tiktok", "https://www.tiktok.com/@" + username),
      ("medium", "https://medium.com/@" + username),
      ("devto", "https://dev.to/" + username) ]
  }

  const PlatformNames: set<string> := {"github", "twitter", "reddit", "tiktok", "medium", "devto"}

  /** A status that counts as the profile existing. */
  predicate FoundStatus(status: int)
  {
    status == 200 || status == 301 || status == 302
  }

  /** The record stored for one platform: found exactly for status 200, 301
      or 302; a raised request is not found, with status `"error"` and the
      exception text. */
  function ClassifyPresence(outcome: FetchOutcome, url: string): (rec: PresenceRecord)
    ensures rec.url == url
    ensures rec.found <==> outcome.Response? && FoundStatus(outcome.status)
    ensures outcome.Response? ==> rec.status == Code(outcome.status)
    ensures outcome.Raised? ==> rec.status == Error(outcome.message)
  {
    match outcome
    case Response(status, _) => PresenceRecord(FoundStatus(status), Code(status), url)
    case Raised(message) => PresenceRecord(false, Error(message), url)
  }

  /** `results` holds exactly the six platforms, each with the record its
      GET gave. */
  predicate PresenceRecorded(results: map<string, PresenceRecord>, username: string, fetch: string -> FetchOutcome)
  {
    && results.Keys == PlatformNames
    && forall p :: p in PlatformUrls(username) ==> p.0 in results && results[p.0] == ClassifyPresence(fetch(p.1), p.1)
  }

  /** `check_username_presence`: one GET per platform, every outcome
      recorded (a failure does not stop the loop). `fetch` gives the
      outcome of a GET of each URL. */
  method CheckUsernamePresence(username: string, fetch: string -> FetchOutcome)
    returns (results: map<string, PresenceRecord>)
    ensures PresenceRecorded(results, username, fetch)
  {
    var platforms := PlatformUrls(username);
    results := map[];
    var i := 0;
    while i < |platforms|
      invariant 0 <= i <= |platforms|
      invariant results.Keys == set j | 0 <= j < i :: platforms[j].0
      invariant forall j :: 0 <= j < i ==> results[platforms[j].0] == ClassifyPresence(fetch(platforms[j].1), platforms[j].1)
    {
      var (name, url) := platforms[i];
      results := results[name := ClassifyPresence(fetch(url), url)];
      i := i + 1;
    }
    RecordedByIndex(results, username, fetch);
  }

  /** The loop's invariant at its end gives `PresenceRecorded`. */
  lemma RecordedByIndex(results: map<string, PresenceRecord>, username: string, fetch: string -> FetchOutcome)
    requires results.Keys == set j | 0 <= j < 6 :: PlatformUrls(username)[j].0
    requires forall j :: 0 <= j < 6 ==>
      results[PlatformUrls(username)[j].0] == ClassifyPresence(fetch(PlatformUrls(username)[j].1), PlatformUrls(username)[j].1)
    ensures PresenceRecorded(results, username, fetch)
  {
    var platforms := PlatformUrls(username);
    assert forall p :: p in platforms ==> exists j :: 0 <= j < 6 && platforms[j] == p;
    assert results.Keys == PlatformNames by {
      assert platforms[0].0 == "github" && platforms[1].0 == "twitter" && platforms[2].0 == "reddit";
      assert platforms[3].0 == "tiktok" && platforms[4].0 == "medium" && platforms[5].0 == "devto";
    }
  }

  /** The Twitter entry, which later gates the Twitter enrichment, is found
      exactly when the GET of `https://x.com/<username>` answered 200, 301
      or 302. */
  lemma TwitterFoundIff(username: string, fetch: string -> FetchOutcome, results: map<string, PresenceRecord>)
    requires PresenceRecorded(results, username, fetch)
    ensures TwitterExists(results)
        <==> fetch("https://x.com/" + username).Response? && FoundStatus(fetch("https://x.com/" + username).status)
  {
    assert PlatformUrls(username)[1] == ("twitter", "https://x.com/" + username);
  }
}
