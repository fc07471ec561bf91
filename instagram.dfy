/** core/instagram.py: the mapping from the two Instagram API responses to
    a user id and a profile record, and the two-way timeline classifier
    main.py uses. The GETs themselves are inputs: the outcome of each is a
    `JsonFetch`. */
module Instagram {
  import opened Probe
  import opened Schema
  import Timeline

  /** `r.json()["data"]["user"]["id"]`, or `None` where that raises. An id
      that is not a JSON string is treated as missing. */
  function UserIdPath(body: Json): Option<string>
  {
    match Field(body, "data")
    case None => None
    case Some(data) =>
      match Field(data, "user")
      case None => None
      case Some(user) =>
        match Field(user, "id")
        case Some(JStr(id)) => Some(id)
        case _ => None
  }

  /** `resolve_user_id`: the GET is outside any `try`, so a transport
      failure propagates; a status other than 200, a body that is not JSON
      or a missing `data.user.id` all give `None`. */
  function ResolveUserId(fetch: JsonFetch): (r: Result<Option<string>>)
    ensures r.Failure? <==> fetch.JsonRaised?
    ensures fetch.JsonRaised? ==> r.message == fetch.message
    ensures r.Ok? && r.value.Some?
        <==> fetch.JsonResponse? && fetch.status == 200 && fetch.body.Some?
             && UserIdPath(fetch.body.value).Some?
    ensures r.Ok? && r.value.Some? ==> r.value == UserIdPath(fetch.body.value)
  {
    match fetch
    case JsonRaised(message) => Failure(message)
    case JsonResponse(status, body) =>
      if status != 200 then Ok(None)
      else if body.None? then Ok(None)
      else Ok(UserIdPath(body.value))
  }

  /** The dictionary `fetch_profile_info` returns for a 200 response. */
  datatype ProfileInfo = ProfileInfo(
    fullName: string,
    biography: string,
    externalUrl: Option<string>,
    followers: int,
    following: int,
    posts: int,
    verified: bool,
    business: bool,
    isPrivate: bool,
    publicEmail: string,
    publicPhone: string,
    profilePic: Option<string>,
    profilePicHash: string)

  /** `u.get(key, default)` for a string field. */
  function StrField(u: map<string, Json>, key: string, default: string): string
  {
    if key in u && u[key].JStr? then u[key].s else default
  }

  /** `u.get(key, default)` for a numeric field. */
  function IntField(u: map<string, Json>, key: string, default: int): int
  {
    if key in u && u[key].JNum? then u[key].n else default
  }

  /** `u.get(key, default)` for a boolean field. */
  function BoolField(u: map<string, Json>, key: string, default: bool): bool
  {
    if key in u && u[key].JBool? then u[key].b else default
  }

  /** `u.get(key)` for a field that may be absent or `null`. */
  function OptField(u: map<string, Json>, key: string): Option<string>
  {
    if key in u && u[key].JStr? then Some(u[key].s) else None
  }

  /** `u.get("profile_pic_url_hd") or u.get("profile_pic_url")`: the HD URL
      when it is a non-empty string, otherwise whatever the plain field
      holds. */
  function ProfilePic(u: map<string, Json>): (pic: Option<string>)
    ensures OptField(u, "profile_pic_url_hd").Some? && OptField(u, "profile_pic_url_hd").value != ""
        ==> pic == OptField(u, "profile_pic_url_hd")
    ensures !(OptField(u, "profile_pic_url_hd").Some? && OptField(u, "profile_pic_url_hd").value != "")
        ==> pic == OptField(u, "profile_pic_url")
  {
    var hd := OptField(u, "profile_pic_url_hd");
    if hd.Some? && hd.value != "" then hd else OptField(u, "profile_pic_url")
  }

  /** `hashlib.sha1((pic or "").encode()).hexdigest()[:16]`: sixteen hex
      digits, of the empty string when there is no picture. */
  function PicHash(sha1: string -> Sha1Hex, pic: Option<string>): (h: string)
    ensures |h| == 16
    ensures forall c :: c in h ==> '0' <= c <= '9' || 'a' <= c <= 'f'
    ensures pic.None? || pic == Some("") ==> h == sha1("")[..16]
    ensures pic.Some? ==> h == sha1(pic.value)[..16]
  {
    var text := if pic.Some? then pic.value else "";
    sha1(text)[..16]
  }

  /** The record built from the `user` object of a 200 response. */
  function ProfileOf(u: map<string, Json>, sha1: string -> Sha1Hex): ProfileInfo
  {
    var pic := ProfilePic(u);
    ProfileInfo(
      StrField(u, "full_name", ""),
      StrField(u, "biography", ""),
      OptField(u, "external_url"),
      IntField(u, "follower_count", 0),
      IntField(u, "following_count", 0),
      IntField(u, "media_count", 0),
      BoolField(u, "is_verified", false),
      BoolField(u, "is_business", false),
      BoolField(u, "is_private", false),
      StrField(u, "public_email", ""),
      StrField(u, "public_phone_number", ""),
      pic,
      PicHash(sha1, pic))
  }

  /** `fetch_profile_info`: `Ok(None)` is the empty dictionary returned for
      a status other than 200. On a 200, a body that is not JSON, that is
      not an object, or whose `user` is not an object raises, as
      `r.json().get("user", {})` and `u.get` would; a missing `user` gives
      the all-defaults record. */
  function FetchProfileInfo(fetch: JsonFetch, sha1: string -> Sha1Hex): (r: Result<Option<ProfileInfo>>)
    ensures r.Failure? <==> (fetch.JsonRaised?
      || (fetch.status == 200 && (fetch.body.None? || !fetch.body.value.JObj?
          || ("user" in fetch.body.value.fields && !fetch.body.value.fields["user"].JObj?))))
    ensures r == Ok(None) <==> fetch.JsonResponse? && fetch.status != 200
    ensures r.Ok? && r.value.Some? ==> |r.value.value.profilePicHash| == 16
    ensures fetch.JsonResponse? && fetch.status == 200 && fetch.body.Some? && fetch.body.value.JObj?
            && ("user" in fetch.body.value.fields ==> fetch.body.value.fields["user"].JObj?)
        ==> r == Ok(Some(ProfileOf(if "user" in fetch.body.value.fields then fetch.body.value.fields["user"].fields else map[], sha1)))
  {
    match fetch
    case JsonRaised(message) => Failure(message)
    case JsonResponse(status, body) =>
      if status != 200 then Ok(None)
      else if body.None? || !body.value.JObj? then Failure("response is not a JSON object")
      else
        var fields := body.value.fields;
        if "user" !in fields then Ok(Some(ProfileOf(map[], sha1)))
        else if !fields["user"].JObj? then Failure("user is not a JSON object")
        else Ok(Some(ProfileOf(fields["user"].fields, sha1)))
  }

  /** A 200 response copies the counts and the name out of the `user`
      object: `follower_count`, `following_count` and `media_count` become
      followers, following and posts. */
  lemma FetchedCountsFromUser(fetch: JsonFetch, sha1: string -> Sha1Hex, u: map<string, Json>, name: string, followers: int, following: int, posts: int)
    requires fetch.JsonResponse? && fetch.status == 200 && fetch.body.Some? && fetch.body.value.JObj?
    requires "user" in fetch.body.value.fields && fetch.body.value.fields["user"] == JObj(u)
    requires "full_name" in u && u["full_name"] == JStr(name)
    requires "follower_count" in u && u["follower_count"] == JNum(followers)
    requires "following_count" in u && u["following_count"] == JNum(following)
    requires "media_count" in u && u["media_count"] == JNum(posts)
    ensures FetchProfileInfo(fetch, sha1).Ok? && FetchProfileInfo(fetch, sha1).value.Some?
    ensures var p := FetchProfileInfo(fetch, sha1).value.value;
      p.fullName == name && p.followers == followers && p.following == following && p.posts == posts
  {
  }

  /** A 200 object without a `user` key gives the all-defaults record: no
      name, zero counts, no flags, no picture, and the hash of `""`. */
  lemma MissingUserGivesDefaults(fetch: JsonFetch, sha1: string -> Sha1Hex)
    requires fetch.JsonResponse? && fetch.status == 200 && fetch.body.Some? && fetch.body.value.JObj?
    requires "user" !in fetch.body.value.fields
    ensures FetchProfileInfo(fetch, sha1)
         == Ok(Some(ProfileInfo("", "", None, 0, 0, 0, false, false, false, "", "", None, sha1("")[..16])))
  {
  }

  /** A 200 response whose `user` object has a non-empty HD picture URL
      records that URL and the hash of its text. */
  lemma HdPictureWins(u: map<string, Json>, sha1: string -> Sha1Hex, hd: string)
    requires "profile_pic_url_hd" in u && u["profile_pic_url_hd"] == JStr(hd) && hd != ""
    ensures ProfileOf(u, sha1).profilePic == Some(hd)
    ensures ProfileOf(u, sha1).profilePicHash == sha1(hd)[..16]
  {
  }

  /** Without any picture field the hash is that of the empty string. */
  lemma NoPictureHashesEmpty(u: map<string, Json>, sha1: string -> Sha1Hex)
    requires "profile_pic_url_hd" !in u && "profile_pic_url" !in u
    ensures ProfileOf(u, sha1).profilePic == None
    ensures ProfileOf(u, sha1).profilePicHash == sha1("")[..16]
  {
  }

  /** `infer_timeline_consistency`: `"consistent"` exactly when the Twitter
      presence record says the profile exists, `"unknown"` otherwise. */
  function InferTimelineConsistency(r: Report): (verdict: string)
    ensures verdict == "consistent" <==> TwitterExists(r.platforms)
    ensures verdict == "unknown" <==> !TwitterExists(r.platforms)
  {
    if TwitterExists(r.platforms) then "consistent" else "unknown"
  }

  /** Unlike `Timeline.TimelineConsistency`, follower counts play no part:
      the pipeline's classifier says `"consistent"` where the three-way one
      may only say `"partial"`, and `"unknown"` where it says
      `"insufficient"`. */
  lemma ClassifiersCompared(r: Report)
    ensures InferTimelineConsistency(r) == "consistent"
        <==> Timeline.TimelineConsistency(r.profile.followers, TwitterExists(r.platforms)) != "insufficient"
    ensures InferTimelineConsistency(r.(profile := r.profile.(followers := 0))) == InferTimelineConsistency(r)
  {
  }
}
