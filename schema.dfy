/** The investigation report assembled by main.py and the records the
    probes put into it. Python keeps these as dictionaries; here each has
    the fixed set of keys the code writes. */
module Schema {
  import opened Probe

  /** The `status` of a presence record: an HTTP code, or `"error"`
      together with the exception text. */
  datatype Status = Code(code: int) | Error(message: string)

  /** One platform's entry in `report["platforms"]`. */
  datatype PresenceRecord = PresenceRecord(found: bool, status: Status, url: string)

  /** One `{hash, url}` entry of an avatar history. */
  datatype AvatarEntry = AvatarEntry(hash: string, url: string)

  /** The dictionary `twitter_deep_osint` returns. */
  datatype TwitterResult = TwitterResult(
    found: bool,
    bio: string,
    urls: seq<string>,
    pinnedText: string,
    emails: seq<string>,
    emailPatterns: seq<string>)

  /** One `{query, engine}` leak signal. */
  datatype LeakSignal = LeakSignal(query: string, engine: string)

  /** `report["leak_signals"]`: the two-bucket dictionary the report starts
      with, or the list `check_leak_signals` returns. */
  datatype LeakSlot =
    | LeakBuckets(bingSignals: seq<LeakSignal>, pastebinLeaks: seq<map<string, string>>)
    | LeakList(signals: seq<LeakSignal>)

  /** The two flags of `vulnerability_checks.private_content_exposure` that
      main.py reads. */
  datatype Exposure = Exposure(legacyJsonVulnerable: bool, graphqlVulnerable: bool)

  /** The dictionary `generate_dorks` returns: exactly the keys `google`
      and `bing`. */
  datatype Dorks = Dorks(google: seq<string>, bing: seq<string>)

  /** Results of the advanced per-platform matcher, carried through the
      report unchanged. */
  type AdvancedResults = map<string, map<string, string>>

  /** The twelve report keys `report.update(...)` fills in from the
      profile dictionary. */
  datatype Profile = Profile(
    fullName: string,
    biography: string,
    externalUrl: string,
    followers: int,
    following: int,
    posts: int,
    verified: bool,
    business: bool,
    isPrivate: bool,
    publicEmail: string,
    publicPhone: string,
    profilePic: Option<string>)

  /** The investigation report, with the profile keys grouped in
      `profile`. `avatarChanged` and `confidence` are
      optional because the scoring code distinguishes a missing key from a
      present one (`is False`, `.get("confidence", 0.0)`); confidence is in
      hundredths. */
  datatype Report = Report(
    username: string,
    userId: string,
    usernameHistory: seq<string>,
    usernameChanged: bool,
    avatarHistory: seq<AvatarEntry>,
    avatarChanged: Option<bool>,
    profile: Profile,
    usernameVariants: seq<string>,
    platforms: map<string, PresenceRecord>,
    advancedPlatforms: AdvancedResults,
    twitter: Option<TwitterResult>,
    emails: seq<string>,
    leakSignals: LeakSlot,
    timelineConsistency: string,
    vulnerabilityChecks: Option<Exposure>,
    confidence: Option<int>,
    risk: string,
    riskExplanation: string,
    searchDorks: Option<Dorks>,
    matchLevel: string,
    matchReasons: seq<string>)

  /** `platforms.get("twitter", {}).get("exists")`. */
  predicate TwitterExists(platforms: map<string, PresenceRecord>)
  {
    "twitter" in platforms && platforms["twitter"].found
  }
}
