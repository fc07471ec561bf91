/** enrich/dorks.py: search-engine queries for an investigated account,
    built from its names, biography, id and avatar URLs, then deduplicated
    and sorted. */
module DorkGen {
  import opened Text
  import opened Order
  import opened Schema

  /** The six Google templates for one name. */
  function GoogleFor(u: string): seq<string>
  {
    [ "\"" + u + "\" instagram",
      "\"" + u + "\" \"instagram profile\"",
      "site:instagram.com \"" + u + "\"",
      "site:dumpor.com \"" + u + "\"",
      "site:imginn.com \"" + u + "\"",
      "site:picuki.com \"" + u + "\"" ]
  }

  /** The three Bing templates for one name. */
  function BingFor(u: string): seq<string>
  {
    [ u + " instagram profile",
      "site:dumpor.com " + u,
      "site:imginn.com " + u ]
  }

  /** `f"\"{text}\" instagram"`, used for the biography and avatar tokens
      (and by the first Google template). */
  function Quoted(text: string): string
  {
    "\"" + text + "\" instagram"
  }

  /** The two Google queries for a user id. */
  function IdDorks(userId: string): seq<string>
  {
    [ "\"profilePage_" + userId + "\"",
      "\"" + userId + "\" \"instagram\"" ]
  }

  /** `token` is the part of `url` after its last `/` and before the
      first `?` that follows: `url` is `pre + token + rest` with `pre`
      empty or ending in `/`, no `/` in `rest`, and `rest` empty or
      starting with `?`. */
  predicate TokenIn(url: string, pre: string, token: string, rest: string)
  {
    url == pre + token + rest && (pre == [] || pre[|pre| - 1] == '/')
    && '/' !in rest && (rest == [] || rest[0] == '?')
  }

  /** `url.split("/")[-1].split("?")[0]`: the last path segment without
      its query string. */
  function AvatarToken(url: string): (token: string)
    ensures '/' !in token && '?' !in token
    ensures exists pre, rest :: TokenIn(url, pre, token, rest)
  {
    var last := Last(Split(url, '/'));
    var token := Split(last, '?')[0];
    SplitPieceChars(last, '?', token);
    LastSegmentToken(url, last);
    token
  }

  /** The last `/`-segment follows the last `/` of the URL. */
  lemma LastSegment(url: string) returns (pre: string)
    ensures EndsAfter(url, pre, Last(Split(url, '/')), '/')
    ensures '/' !in Last(Split(url, '/'))
  {
    var segments := Split(url, '/');
    JoinSplit(url, '/');
    JoinEndsWithLast(segments, '/');
    pre :| EndsAfter(url, pre, Last(segments), '/');
  }

  /** The first `?`-piece of a segment is followed by nothing or by `?`. */
  lemma FirstQueryPiece(last: string) returns (rest: string)
    ensures last == Split(last, '?')[0] + rest
    ensures rest == [] || rest[0] == '?'
  {
    var pieces := Split(last, '?');
    JoinSplit(last, '?');
    rest := if |pieces| == 1 then [] else ['?'] + Join(pieces[1..], '?');
  }

  /** The token the split chain picks sits between the last `/` and the
      following `?`. */
  lemma LastSegmentToken(url: string, last: string)
    requires last == Last(Split(url, '/'))
    ensures exists pre, rest :: TokenIn(url, pre, Split(last, '?')[0], rest)
  {
    var pre := LastSegment(url);
    var rest := FirstQueryPiece(last);
    var token := Split(last, '?')[0];
    assert '/' !in rest by {
      assert forall c :: c in rest ==> c in last;
    }
    assert url == pre + token + rest;
    assert TokenIn(url, pre, token, rest);
  }

  /** The names the first loop runs over: `set([username] + variants)`. */
  ghost function Names(r: Report): set<string>
  {
    {r.username} + Elems(r.usernameVariants)
  }

  ghost function GoogleForAll(names: set<string>): set<string>
  {
    set u, q | u in names && q in GoogleFor(u) :: q
  }

  ghost function BingForAll(names: set<string>): set<string>
  {
    set u, q | u in names && q in BingFor(u) :: q
  }

  /** The queries contributed by avatar entries with a non-empty URL. */
  ghost function AvatarDorks(avatars: seq<AvatarEntry>): set<string>
  {
    set a | a in avatars && a.url != "" :: Quoted(AvatarToken(a.url))
  }

  ghost function BioDorks(bio: string): set<string>
  {
    if bio != "" then {Quoted(bio)} else {}
  }

  ghost function UserIdDorks(userId: string): set<string>
  {
    if userId != "" then Elems(IdDorks(userId)) else {}
  }

  /** Every Google query the report gives rise to. */
  ghost function GoogleSpec(r: Report): set<string>
  {
    GoogleForAll(Names(r)) + BioDorks(r.profile.biography) + UserIdDorks(r.userId) + AvatarDorks(r.avatarHistory)
  }

  /** Every Bing query the report gives rise to (user ids add none). */
  ghost function BingSpec(r: Report): set<string>
  {
    BingForAll(Names(r)) + BioDorks(r.profile.biography) + AvatarDorks(r.avatarHistory)
  }

  lemma GoogleForAllStep(names: set<string>, u: string)
    ensures GoogleForAll(names + {u}) == GoogleForAll(names) + Elems(GoogleFor(u))
  {
    forall q | q in GoogleForAll(names + {u}) ensures q in GoogleForAll(names) + Elems(GoogleFor(u)) {
      var v :| v in names + {u} && q in GoogleFor(v);
      if v != u {
        assert q in GoogleForAll(names);
      }
    }
  }

  lemma BingForAllStep(names: set<string>, u: string)
    ensures BingForAll(names + {u}) == BingForAll(names) + Elems(BingFor(u))
  {
    forall q | q in BingForAll(names + {u}) ensures q in BingForAll(names) + Elems(BingFor(u)) {
      var v :| v in names + {u} && q in BingFor(v);
      if v != u {
        assert q in BingForAll(names);
      }
    }
  }

  lemma AvatarDorksStep(avatars: seq<AvatarEntry>, i: int)
    requires 0 <= i < |avatars|
    ensures AvatarDorks(avatars[..i + 1])
         == AvatarDorks(avatars[..i]) + (if avatars[i].url != "" then {Quoted(AvatarToken(avatars[i].url))} else {})
  {
    assert avatars[..i + 1] == avatars[..i] + [avatars[i]];
  }

  /** The first loop of `generate_dorks`: the six Google and three Bing
      templates for every name, in set iteration order. */
  method NameDorks(names: set<string>) returns (google: seq<string>, bing: seq<string>)
    ensures Elems(google) == GoogleForAll(names)
    ensures Elems(bing) == BingForAll(names)
  {
    google, bing := [], [];
    var pending := names;
    ghost var done: set<string> := {};
    while pending != {}
      invariant pending + done == names
      invariant Elems(google) == GoogleForAll(done)
      invariant Elems(bing) == BingForAll(done)
      decreases |pending|
    {
      var u :| u in pending;
      ElemsConcat(google, GoogleFor(u));
      ElemsConcat(bing, BingFor(u));
      GoogleForAllStep(done, u);
      BingForAllStep(done, u);
      google := google + GoogleFor(u);
      bing := bing + BingFor(u);
      pending := pending - {u};
      done := done + {u};
    }
  }

  /** The avatar loop of `generate_dorks`: one query per entry with a
      non-empty URL, appended to both lists. */
  method AddAvatarDorks(google0: seq<string>, bing0: seq<string>, avatars: seq<AvatarEntry>)
    returns (google: seq<string>, bing: seq<string>)
    ensures Elems(google) == Elems(google0) + AvatarDorks(avatars)
    ensures Elems(bing) == Elems(bing0) + AvatarDorks(avatars)
  {
    google, bing := google0, bing0;
    var i := 0;
    assert AvatarDorks(avatars[..0]) == {};
    while i < |avatars|
      invariant 0 <= i <= |avatars|
      invariant Elems(google) == Elems(google0) + AvatarDorks(avatars[..i])
      invariant Elems(bing) == Elems(bing0) + AvatarDorks(avatars[..i])
    {
      AvatarDorksStep(avatars, i);
      var url := avatars[i].url;
      if url != "" {
        var token := AvatarToken(url);
        ElemsConcat(google, [Quoted(token)]);
        ElemsConcat(bing, [Quoted(token)]);
        google := google + [Quoted(token)];
        bing := bing + [Quoted(token)];
      }
      i := i + 1;
    }
    assert avatars[..i] == avatars;
  }

  /** `generate_dorks`: extend both lists per name (in set iteration
      order), then for the biography, the user id and each avatar URL, and
      finally replace each list by `sorted(set(...))`. */
  method GenerateDorks(r: Report) returns (d: Dorks)
    ensures StrictlySorted(d.google) && Elems(d.google) == GoogleSpec(r)
    ensures StrictlySorted(d.bing) && Elems(d.bing) == BingSpec(r)
  {
    var google, bing := NameDorks({r.username} + Elems(r.usernameVariants));
    ghost var googleBase := GoogleForAll(Names(r));
    ghost var bingBase := BingForAll(Names(r));
    if r.profile.biography != "" {
      ElemsConcat(google, [Quoted(r.profile.biography)]);
      ElemsConcat(bing, [Quoted(r.profile.biography)]);
      google := google + [Quoted(r.profile.biography)];
      bing := bing + [Quoted(r.profile.biography)];
    }
    googleBase := googleBase + BioDorks(r.profile.biography);
    bingBase := bingBase + BioDorks(r.profile.biography);
    assert Elems(google) == googleBase && Elems(bing) == bingBase;

    if r.userId != "" {
      ElemsConcat(google, IdDorks(r.userId));
      google := google + IdDorks(r.userId);
    }
    googleBase := googleBase + UserIdDorks(r.userId);
    assert Elems(google) == googleBase;

    google, bing := AddAvatarDorks(google, bing, r.avatarHistory);

    d := Dorks(SortDistinct(google), SortDistinct(bing));
  }

  /** The result does not depend on the order in which the set of names is
      iterated: any two lists meeting the contract are equal. */
  lemma DorksDeterministic(r: Report, d1: Dorks, d2: Dorks)
    requires StrictlySorted(d1.google) && Elems(d1.google) == GoogleSpec(r)
    requires StrictlySorted(d1.bing) && Elems(d1.bing) == BingSpec(r)
    requires StrictlySorted(d2.google) && Elems(d2.google) == GoogleSpec(r)
    requires StrictlySorted(d2.bing) && Elems(d2.bing) == BingSpec(r)
    ensures d1 == d2
  {
    SortedUnique(d1.google, d2.google);
    SortedUnique(d1.bing, d2.bing);
  }

  /** The six Google templates give six different queries for any name. */
  lemma GoogleForDistinct(u: string)
    ensures NoDup(GoogleFor(u))
  {
    var g := GoogleFor(u);
    assert g[3][5] == 'd' && g[4][5] == 'i' && g[5][5] == 'p';
  }

  /** The three Bing templates give three different queries for any name. */
  lemma BingForDistinct(u: string)
    ensures NoDup(BingFor(u))
  {
    var b := BingFor(u);
    assert b[1][5] == 'd' && b[2][5] == 'i';
  }

  /** A strictly ascending list with the elements of a list without
      repetitions has its length. */
  lemma SameCount(xs: seq<string>, ys: seq<string>)
    requires StrictlySorted(xs) && NoDup(ys) && Elems(xs) == Elems(ys)
    ensures |xs| == |ys|
  {
    SortedCard(xs);
    NoDupCard(ys);
  }

  /** With only the username as a name and no biography, id or avatar URL,
      the specified queries are those of the username alone. */
  lemma UsernameOnlySpecs(r: Report)
    requires Elems(r.usernameVariants) <= {r.username}
    requires r.profile.biography == "" && r.userId == ""
    requires forall a :: a in r.avatarHistory ==> a.url == ""
    ensures GoogleSpec(r) == Elems(GoogleFor(r.username))
    ensures BingSpec(r) == Elems(BingFor(r.username))
  {
    assert Names(r) == {} + {r.username};
    assert AvatarDorks(r.avatarHistory) == {};
    GoogleForAllStep({}, r.username);
    BingForAllStep({}, r.username);
  }

  /** A report with only a username (no other variants, biography, id or
      avatar URL) gives exactly six Google and three Bing queries. */
  lemma UsernameOnlyCounts(r: Report, d: Dorks)
    requires Elems(r.usernameVariants) <= {r.username}
    requires r.profile.biography == "" && r.userId == ""
    requires forall a :: a in r.avatarHistory ==> a.url == ""
    requires StrictlySorted(d.google) && Elems(d.google) == GoogleSpec(r)
    requires StrictlySorted(d.bing) && Elems(d.bing) == BingSpec(r)
    ensures |d.google| == 6 && |d.bing| == 3
  {
    UsernameOnlySpecs(r);
    GoogleForDistinct(r.username);
    BingForDistinct(r.username);
    SameCount(d.google, GoogleFor(r.username));
    SameCount(d.bing, BingFor(r.username));
  }
}
