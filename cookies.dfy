/** utils/cookies.py: the session cookies given on the command line, as a
    raw `Cookie`-header-like string or as a parsed JSON file, and the rule
    that decides whether Instagram accepted them. */
module Cookies {
  import opened Text
  import opened Probe

  /** The parsed content of the cookies file: an object of name/value
      pairs, a browser export (a list of objects with `name` and `value`),
      or anything else. */
  datatype CookieFile =
    | DictData(pairs: map<string, string>)
    | ListData(entries: seq<map<string, string>>)
    | OtherData

  /** A raw part defines a cookie when it holds `=`. */
  predicate Defines(part: string)
  {
    '=' in part
  }

  /** `p.strip().split("=", 1)`: the name before the first `=` of the
      stripped part and the value after it, which may itself hold `=`. */
  function Pair(part: string): (kv: (string, string))
    requires Defines(part)
    ensures '=' !in kv.0
    ensures kv.0 + "=" + kv.1 == Strip(part, IsSpace)
  {
    StripKeeps(part, IsSpace, '=');
    SplitOnce(Strip(part, IsSpace), '=')
  }

  /** The name/value pairs the raw parts define, in order. */
  function RawPairs(parts: seq<string>): seq<(string, string)>
    decreases |parts|
  {
    if parts == [] then []
    else
      var part := parts[|parts| - 1];
      RawPairs(parts[..|parts| - 1]) + (if Defines(part) then [Pair(part)] else [])
  }

  /** An export entry defines a cookie when it has both keys. */
  predicate Usable(entry: map<string, string>)
  {
    "name" in entry && "value" in entry
  }

  /** The name/value pairs of the usable export entries, in order. */
  function ExportPairs(entries: seq<map<string, string>>): seq<(string, string)>
    decreases |entries|
  {
    if entries == [] then []
    else
      var e := entries[|entries| - 1];
      ExportPairs(entries[..|entries| - 1]) + (if Usable(e) then [(e["name"], e["value"])] else [])
  }

  /** `cookies[k] = v` for each pair in turn: later pairs override earlier
      ones with the same name. */
  function Assign(pairs: seq<(string, string)>): map<string, string>
    decreases |pairs|
  {
    if pairs == [] then map[]
    else
      var last := pairs[|pairs| - 1];
      Assign(pairs[..|pairs| - 1])[last.0 := last.1]
  }

  lemma AssignAppend(pairs: seq<(string, string)>, more: seq<(string, string)>)
    requires |more| <= 1
    ensures Assign(pairs + more) == if more == [] then Assign(pairs) else Assign(pairs)[more[0].0 := more[0].1]
  {
    if more == [] {
      assert pairs + more == pairs;
    } else {
      assert (pairs + more)[..|pairs|] == pairs;
    }
  }

  /** A name is set exactly when some pair carries it. */
  lemma {:induction false} AssignDefinedIff(pairs: seq<(string, string)>, name: string)
    ensures name in Assign(pairs) <==> exists i :: 0 <= i < |pairs| && pairs[i].0 == name
    decreases |pairs|
  {
    if pairs != [] {
      var n := |pairs| - 1;
      var prefix := pairs[..n];
      AssignDefinedIff(prefix, name);
      if name in Assign(pairs) && pairs[n].0 != name {
        var i :| 0 <= i < |prefix| && prefix[i].0 == name;
        assert pairs[i] == prefix[i];
      }
      if exists i :: 0 <= i < |pairs| && pairs[i].0 == name {
        var i :| 0 <= i < |pairs| && pairs[i].0 == name;
        if i < n {
          assert prefix[i] == pairs[i];
        }
      }
    }
  }

  /** The value of a name is that of the last pair carrying it. */
  lemma {:induction false} AssignLastWins(pairs: seq<(string, string)>, j: int)
    requires 0 <= j < |pairs|
    requires forall l :: j < l < |pairs| ==> pairs[l].0 != pairs[j].0
    ensures pairs[j].0 in Assign(pairs) && Assign(pairs)[pairs[j].0] == pairs[j].1
    decreases |pairs|
  {
    var n := |pairs| - 1;
    if j < n {
      var prefix := pairs[..n];
      assert prefix[j] == pairs[j];
      forall l | j < l < |prefix| ensures prefix[l].0 != prefix[j].0 {
        assert prefix[l] == pairs[l];
      }
      AssignLastWins(prefix, j);
    }
  }

  /** The cookies `load_cookies` returns. A non-empty raw string wins and
      the file is not consulted; otherwise a dictionary file is taken as it
      is and a list file contributes its usable entries; with neither, or
      with file data of another shape, there are no cookies. */
  function Loaded(raw: Option<string>, file: Option<CookieFile>): map<string, string>
  {
    if raw.Some? && raw.value != "" then Assign(RawPairs(Split(raw.value, ';')))
    else match file
         case None => map[]
         case Some(DictData(pairs)) => pairs
         case Some(ListData(entries)) => Assign(ExportPairs(entries))
         case Some(OtherData) => map[]
  }

  /** `load_cookies`, loop by loop. */
  method LoadCookies(raw: Option<string>, file: Option<CookieFile>) returns (cookies: map<string, string>)
    ensures cookies == Loaded(raw, file)
  {
    cookies := map[];
    if raw.Some? && raw.value != "" {
      cookies := AssignRaw(Split(raw.value, ';'));
    } else if file.Some? {
      match file.value {
        case DictData(pairs) =>
          cookies := cookies + pairs;
        case ListData(entries) =>
          cookies := AssignExport(entries);
        case OtherData =>
      }
    }
  }

  /** The loop over the raw parts. */
  method AssignRaw(parts: seq<string>) returns (cookies: map<string, string>)
    ensures cookies == Assign(RawPairs(parts))
  {
    cookies := map[];
    var i := 0;
    while i < |parts|
      invariant 0 <= i <= |parts|
      invariant cookies == Assign(RawPairs(parts[..i]))
    {
      assert parts[..i + 1][..i] == parts[..i];
      var p := parts[i];
      AssignAppend(RawPairs(parts[..i]), if Defines(p) then [Pair(p)] else []);
      if '=' in p {
        var (k, v) := Pair(p);
        cookies := cookies[k := v];
      }
      i := i + 1;
    }
    assert parts[..i] == parts;
  }

  /** The loop over the entries of a browser export. */
  method AssignExport(entries: seq<map<string, string>>) returns (cookies: map<string, string>)
    ensures cookies == Assign(ExportPairs(entries))
  {
    cookies := map[];
    var i := 0;
    while i < |entries|
      invariant 0 <= i <= |entries|
      invariant cookies == Assign(ExportPairs(entries[..i]))
    {
      assert entries[..i + 1][..i] == entries[..i];
      var c := entries[i];
      AssignAppend(ExportPairs(entries[..i]), if Usable(c) then [(c["name"], c["value"])] else []);
      if "name" in c && "value" in c {
        cookies := cookies[c["name"] := c["value"]];
      }
      i := i + 1;
    }
    assert entries[..i] == entries;
  }

  /** The raw parts define no pair exactly when none of them holds `=`. */
  lemma {:induction false} RawPairsEmptyIff(parts: seq<string>)
    ensures RawPairs(parts) == [] <==> forall i :: 0 <= i < |parts| ==> !Defines(parts[i])
    decreases |parts|
  {
    if parts != [] {
      var init := parts[..|parts| - 1];
      RawPairsEmptyIff(init);
      assert forall i :: 0 <= i < |init| ==> init[i] == parts[i];
    }
  }

  /** A non-empty raw string yields no cookies exactly when none of its
      `;`-separated parts holds `=`; the file is then not consulted. */
  lemma RawCookiesEmptyIff(raw: string, file: Option<CookieFile>)
    requires raw != ""
    ensures Loaded(Some(raw), file) == map[] <==> forall p :: p in Split(raw, ';') ==> !Defines(p)
  {
    var pairs := RawPairs(Split(raw, ';'));
    RawPairsEmptyIff(Split(raw, ';'));
    if pairs != [] {
      AssignDefinedIff(pairs, pairs[0].0);
    }
  }

  /** Inputs for which `main` stops with "Cookie required": no source at
      all, an empty raw string, a raw string without `=`, an empty object
      in the file, and a browser export without usable entries. */
  lemma NoCookieSources()
    ensures Loaded(None, None) == map[]
    ensures Loaded(Some(""), None) == map[]
    ensures Loaded(Some("abc"), None) == map[]
    ensures Loaded(None, Some(DictData(map[]))) == map[]
    ensures Loaded(None, Some(ListData([map["name" := "sessionid"]]))) == map[]
  {
    SplitWord("abc", ';');
    var e := [map["name" := "sessionid"]];
    assert !Usable(e[0]);
    assert e[..0] == [];
  }

  /** A stripped part `name=value` whose name holds no `=` sets exactly that
      name to that value, `=` signs in the value included. */
  lemma PairSplitsAtFirstEquals(name: string, value: string)
    requires '=' !in name
    requires Strip(name + "=" + value, IsSpace) == name + "=" + value
    ensures Defines(name + "=" + value)
    ensures Pair(name + "=" + value) == (name, value)
  {
    var p := name + "=" + value;
    assert p[|name|] == '=';
    var kv := Pair(p);
    FirstSeparatorUnique(kv.0, kv.1, name, value, '=');
  }

  /** The response to the cookie-health GET: status and the final URL
      after redirects, or the exception raised instead. */
  datatype HealthProbe = HealthResponse(status: int, finalUrl: string) | HealthRaised(message: string)

  /** `check_cookie_health`'s verdict: healthy exactly when the page
      answered 200 without ending on a login URL. */
  function CookieHealthy(status: int, finalUrl: string): (ok: bool)
    ensures ok <==> status == 200 && !exists i :: OccursAt(finalUrl, "login", i)
  {
    ContainsAt(finalUrl, "login");
    status == 200 && !Contains(finalUrl, "login")
  }
}
