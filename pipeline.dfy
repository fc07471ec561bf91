/** main.py: the empty report, the investigation pipeline that fills it in
    and the checks `main` makes around it. Every network probe is an input:
    `Probes` holds what each GET produced. */
module Pipeline {
  import opened Order
  import opened Probe
  import opened Schema
  import opened Confidence
  import opened Risk
  import opened Scoring
  import opened Instagram
  import opened Usernames
  import opened Twitter
  import opened Leaks
  import opened DorkGen
  import opened Cookies

  /** `build_report_base` as it takes effect: the second definition, whose
      leak slot is the two-bucket dictionary. The first run is the
      baseline: the username is its own history and both change flags are
      set; no field that earns confidence is filled in yet. */
  function BuildReportBase(username: string): (r: Report)
    ensures r.username == username && r.usernameHistory == [username]
    ensures r.usernameChanged && r.avatarChanged == Some(true) && r.avatarHistory == []
    ensures NoSignal(r) && r.profile == EmptyProfile
  {
    Report(
      username, "", [username], true, [], Some(true),
      EmptyProfile,
      [], map[], map[], None, [],
      LeakBuckets([], []),
      "unknown", None, Some(0), "", "", None, "NONE", [])
  }

  /** The profile keys as the empty report has them, which are also the
      `.get` defaults applied to an empty profile dictionary. */
  const EmptyProfile := Profile("", "", "", 0, 0, 0, false, false, false, "", "", Some(""))

  /** The empty report scores 0.0 and grades LOW; it records the username
      as its own history and both change flags as set. */
  lemma BaseReportScoresZero(username: string)
    ensures Score(BuildReportBase(username)) == 0
    ensures CalculateRisk(BuildReportBase(username)) == ("LOW", "Minimal public correlation found")
    ensures BuildReportBase(username).usernameHistory == [username]
    ensures BuildReportBase(username).usernameChanged && BuildReportBase(username).avatarChanged == Some(true)
  {
    NoSignalScoresZero(BuildReportBase(username));
  }

  /** What each probe of one investigation produced. */
  datatype Probes = Probes(
    resolve: JsonFetch,                  // GET of web_profile_info
    exposure: Exposure,                  // check_private_content_exposure
    profile: JsonFetch,                  // GET of users/<id>/info
    presence: string -> FetchOutcome,    // GET of each platform URL
    advanced: AdvancedResults,           // check_username_presence_advanced
    twitterPage: FetchOutcome,           // GET of https://x.com/<username>
    findEmails: string -> seq<string>,   // EMAIL_REGEX.findall
    findUrls: string -> seq<string>,     // the URL findall
    leakSearch: string -> FetchOutcome,  // GET of each Bing search URL
    sha1: string -> Sha1Hex)             // hashlib.sha1 hexdigest

  /** The stages of `investigate_username`, for stating their order. */
  datatype Stage =
    | ResolveStage | ExposureStage | ProfileStage | VariantsStage | PresenceStage
    | AdvancedStage | TwitterStage | LeaksStage | TimelineStage | DorksStage
    | ScoreStage | GradeStage

  /** The resolver produced a non-empty id (`if not uid: raise`). */
  predicate Resolved(probes: Probes)
  {
    var r := ResolveUserId(probes.resolve);
    r.Ok? && r.value.Some? && r.value.value != ""
  }

  /** The profile keys `report.update(...)` sets from the profile
      dictionary (`{}` for a status other than 200): missing keys take the
      `.get` defaults, and a `None` external URL becomes `""`. */
  function ProfileFrom(info: Option<ProfileInfo>): (p: Profile)
    ensures info.None? ==> p == EmptyProfile
    ensures info.Some? ==> p.externalUrl == (if info.value.externalUrl.Some? then info.value.externalUrl.value else "")
  {
    match info
    case None => EmptyProfile
    case Some(i) =>
      Profile(i.fullName, i.biography,
              if i.externalUrl.Some? then i.externalUrl.value else "",
              i.followers, i.following, i.posts, i.verified, i.business, i.isPrivate,
              i.publicEmail, i.publicPhone, i.profilePic)
  }

  /** The picture is present and truthy. */
  predicate HasPicture(r: Report)
  {
    r.profile.profilePic.Some? && r.profile.profilePic.value != ""
  }

  /** The Twitter record and emails: filled in only when the presence check
      found the Twitter profile, from the page as `twitter_deep_osint`
      reads it. */
  ghost predicate TwitterFieldsFrom(r: Report, username: string, probes: Probes)
  {
    if TwitterExists(r.platforms) then
      && r.twitter.Some?
      && r.emails == r.twitter.value.emails
      && var page, t := probes.twitterPage, r.twitter.value;
         (!(page.Response? && page.status == 200) ==> t == DefaultResult)
         && (page.Response? && page.status == 200 ==>
               && t.found && t.bio == "" && t.pinnedText == ""
               && NoDup(t.emails) && Elems(t.emails) == Elems(probes.findEmails(page.text))
               && StrictlySorted(t.urls) && Elems(t.urls) == KeptUrls(probes.findUrls(page.text))
               && |t.emailPatterns| == 3 * |Domains(t.urls)|
               && Elems(t.emailPatterns) == PatternsForAll(username, Domains(t.urls)))
    else
      r.twitter == None && r.emails == []
  }

  /** `report.update(...)` with the profile dictionary, then the avatar
      baseline: one `{hash, url}` entry when the picture is truthy. */
  function ApplyProfile(report: Report, info: Option<ProfileInfo>): (r: Report)
    requires report.avatarHistory == []
    ensures r.profile == ProfileFrom(info)
    ensures r.avatarHistory == (if HasPicture(r) then [AvatarEntry(info.value.profilePicHash, r.profile.profilePic.value)] else [])
    ensures r.(profile := report.profile, avatarHistory := report.avatarHistory) == report
  {
    var updated := report.(profile := ProfileFrom(info));
    if HasPicture(updated) then
      updated.(avatarHistory := updated.avatarHistory + [AvatarEntry(info.value.profilePicHash, updated.profile.profilePic.value)])
    else updated
  }

  /** Step 6: Twitter deep OSINT when the presence check found the Twitter
      profile, its emails appended to the (still empty) email list. */
  method TwitterStep(report: Report, username: string, probes: Probes) returns (r: Report)
    requires report.twitter == None && report.emails == []
    ensures r.platforms == report.platforms
    ensures TwitterFieldsFrom(r, username, probes)
    ensures r.(twitter := report.twitter, emails := report.emails) == report
  {
    r := report;
    if TwitterExists(report.platforms) {
      var t := TwitterDeepOsint(username, probes.twitterPage, probes.findEmails, probes.findUrls);
      r := r.(twitter := Some(t), emails := r.emails + t.emails);
    }
  }

  /** Steps 8 to 10: the timeline, then the dorks, then the confidence,
      then the grade, each computed from the report as the earlier steps
      left it. */
  method Conclude(report: Report) returns (r: Report)
    ensures Concluded(r)
    ensures r.platforms == report.platforms
    ensures r.(timelineConsistency := report.timelineConsistency, searchDorks := report.searchDorks,
               confidence := report.confidence, risk := report.risk,
               riskExplanation := report.riskExplanation) == report
  {
    r := report.(timelineConsistency := InferTimelineConsistency(report));
    var dorks := GenerateDorks(r);
    r := r.(searchDorks := Some(dorks));
    var confidence := ScoreConfidence(r);
    r := r.(confidence := Some(confidence));
    var (risk, explanation) := GradeRisk(r);
    r := r.(risk := risk, riskExplanation := explanation);
  }

  /** The keys steps 1 to 7 fill in, each as its probe gave it. */
  ghost predicate Gathered(r: Report, username: string, probes: Probes, info: Option<ProfileInfo>)
  {
    && r.username == username && r.usernameHistory == [username]
    && r.usernameChanged && r.avatarChanged == Some(true)
    && ResolveUserId(probes.resolve) == Ok(Some(r.userId)) && r.userId != ""
    && r.vulnerabilityChecks == Some(probes.exposure)
    && r.profile == ProfileFrom(info)
    && r.avatarHistory == (if HasPicture(r) && info.Some? then [AvatarEntry(info.value.profilePicHash, r.profile.profilePic.value)] else [])
    && r.usernameVariants == GenerateVariants(username)
    && PresenceRecorded(r.platforms, username, probes.presence)
    && r.advancedPlatforms == probes.advanced
    && TwitterFieldsFrom(r, username, probes)
    && r.leakSignals == LeakList(LeakSpec(username, probes.leakSearch, SearchQueries))
    && r.matchLevel == "NONE" && r.matchReasons == []
  }

  /** The keys steps 8 to 10 compute from the rest of the report. */
  ghost predicate Concluded(r: Report)
  {
    && r.timelineConsistency == InferTimelineConsistency(r)
    && r.searchDorks.Some?
    && StrictlySorted(r.searchDorks.value.google) && Elems(r.searchDorks.value.google) == GoogleSpec(r)
    && StrictlySorted(r.searchDorks.value.bing) && Elems(r.searchDorks.value.bing) == BingSpec(r)
    && r.confidence == Some(Score(r))
    && (r.risk, r.riskExplanation) == CalculateRisk(r)
  }

  /** Steps 8 to 10 leave what steps 1 to 7 gathered as it was. */
  lemma ConcludeKeepsGathered(r: Report, report: Report, username: string, probes: Probes, info: Option<ProfileInfo>)
    requires Gathered(report, username, probes, info)
    requires r.(timelineConsistency := report.timelineConsistency, searchDorks := report.searchDorks,
                confidence := report.confidence, risk := report.risk,
                riskExplanation := report.riskExplanation) == report
    ensures Gathered(r, username, probes, info)
  {
  }

  /** The stages up to the leak search, in order. */
  function GatherTrace(twitter: bool): seq<Stage>
  {
    [ResolveStage, ExposureStage, ProfileStage, VariantsStage, PresenceStage, AdvancedStage]
    + (if twitter then [TwitterStage] else [])
    + [LeaksStage]
  }

  lemma GatherTraceSteps()
    ensures [ResolveStage] + [ExposureStage] + [ProfileStage] + [VariantsStage] + [PresenceStage]
            + [AdvancedStage] + [TwitterStage] + [LeaksStage] == GatherTrace(true)
    ensures [ResolveStage] + [ExposureStage] + [ProfileStage] + [VariantsStage] + [PresenceStage]
            + [AdvancedStage] + [LeaksStage] == GatherTrace(false)
  {
  }

  /** The last four stages, in order. */
  const ConcludeTrace := [TimelineStage, DorksStage, ScoreStage, GradeStage]

  /** The stages a successful run goes through, in order. */
  function FullTrace(twitter: bool): seq<Stage>
  {
    GatherTrace(twitter) + ConcludeTrace
  }

  /** Steps 1 to 7 of `investigate_username`: the id gate, the exposure
      check, the profile, variants, presence, advanced matches, Twitter and
      leaks. */
  method Gather(username: string, probes: Probes)
    returns (outcome: Result<Report>, ghost trace: seq<Stage>)
    ensures outcome.Ok? <==> Resolved(probes) && FetchProfileInfo(probes.profile, probes.sha1).Ok?
    ensures !Resolved(probes) ==> trace == [ResolveStage]
    ensures outcome.Ok? ==> Gathered(outcome.value, username, probes, FetchProfileInfo(probes.profile, probes.sha1).value)
    ensures outcome.Ok? ==> trace == GatherTrace(TwitterExists(outcome.value.platforms))
  {
    var report := BuildReportBase(username);
    trace := [ResolveStage];

    var uid := ResolveUserId(probes.resolve);
    if uid.Failure? {
      return Failure(uid.message), trace;
    }
    if uid.value.None? || uid.value.value == "" {
      return Failure("Failed to resolve Instagram user ID"), trace;
    }
    report := report.(userId := uid.value.value);

    trace := trace + [ExposureStage];
    report := report.(vulnerabilityChecks := Some(probes.exposure));

    trace := trace + [ProfileStage];
    var fetched := FetchProfileInfo(probes.profile, probes.sha1);
    if fetched.Failure? {
      return Failure(fetched.message), trace;
    }
    report := ApplyProfile(report, fetched.value);

    trace := trace + [VariantsStage];
    report := report.(usernameVariants := GenerateVariants(username));

    trace := trace + [PresenceStage];
    var platforms := CheckUsernamePresence(username, probes.presence);
    report := report.(platforms := platforms);

    trace := trace + [AdvancedStage];
    report := report.(advancedPlatforms := probes.advanced);

    ghost var twitter := TwitterExists(report.platforms);
    if twitter {
      trace := trace + [TwitterStage];
    }
    report := TwitterStep(report, username, probes);

    trace := trace + [LeaksStage];
    var leaks := CheckLeakSignals(username, probes.leakSearch);
    report := report.(leakSignals := LeakList(leaks));

    GatherTraceSteps();
    outcome := Ok(report);
  }

  /** `investigate_username`. A transport failure of either Instagram GET,
      an unusable profile body, or a missing or empty user id ends the run
      with an exception; the id gate comes before any other probe. On
      success every key is what its probe gave, and the timeline, dorks,
      confidence and grade are computed last, in that order, each from the
      report as the earlier steps left it. */
  method InvestigateUsername(username: string, probes: Probes)
    returns (outcome: Result<Report>, ghost trace: seq<Stage>)
    ensures outcome.Ok? <==> Resolved(probes) && FetchProfileInfo(probes.profile, probes.sha1).Ok?
    ensures !Resolved(probes) ==> trace == [ResolveStage]
    ensures outcome.Ok? ==> Gathered(outcome.value, username, probes, FetchProfileInfo(probes.profile, probes.sha1).value)
    ensures outcome.Ok? ==> Concluded(outcome.value)
    ensures outcome.Ok? ==> trace == FullTrace(TwitterExists(outcome.value.platforms))
  {
    outcome, trace := Gather(username, probes);
    if outcome.Failure? {
      return;
    }
    var report := outcome.value;
    trace := trace + ConcludeTrace;
    var concluded := Conclude(report);
    ConcludeKeepsGathered(concluded, report, username, probes, FetchProfileInfo(probes.profile, probes.sha1).value);
    outcome := Ok(concluded);
  }

  /** In a finished report the id and variants signals are always on and
      the avatar signal never is (the report keeps `avatar_changed` True),
      so confidence lies between 0.30 and 0.80. */
  lemma PipelineConfidenceRange(r: Report, username: string, probes: Probes, info: Option<ProfileInfo>)
    requires Gathered(r, username, probes, info) && Concluded(r)
    ensures r.confidence.Some? && 30 <= r.confidence.value <= 80
  {
    assert username in r.usernameVariants;
    ScoreIsSumOfPresentWeights(r);
  }

  /** In a finished report the timeline signal fires exactly when the
      Twitter signal does, so the two always contribute 0.30 together or
      nothing. */
  lemma TimelineTracksTwitter(r: Report)
    requires Concluded(r)
    ensures Signals(r)[2] == Signals(r)[1]
  {
  }

  /** The summary line: `"VULNERABLE"` exactly when either exposure flag is
      set. */
  function VulnSummary(e: Exposure): (summary: string)
    ensures summary == "VULNERABLE" <==> e.legacyJsonVulnerable || e.graphqlVulnerable
    ensures summary == "NOT_VULNERABLE" <==> !(e.legacyJsonVulnerable || e.graphqlVulnerable)
  {
    if e.legacyJsonVulnerable || e.graphqlVulnerable then "VULNERABLE" else "NOT_VULNERABLE"
  }

  /** `main` without argument parsing and printing: load the cookies, stop
      when there are none or the health check fails, investigate, and
      summarise the exposure flags. */
  method Run(username: string, rawCookie: Option<string>, cookiesFile: Option<CookieFile>,
             health: HealthProbe, probes: Probes)
    returns (outcome: Result<(Report, string)>)
    ensures outcome.Ok? <==>
      && Loaded(rawCookie, cookiesFile) != map[]
      && health.HealthResponse? && CookieHealthy(health.status, health.finalUrl)
      && Resolved(probes) && FetchProfileInfo(probes.profile, probes.sha1).Ok?
    ensures Loaded(rawCookie, cookiesFile) == map[] ==> outcome == Failure("Cookie required (--cookie or --cookies-file)")
    ensures Loaded(rawCookie, cookiesFile) != map[] && health.HealthRaised? ==> outcome == Failure(health.message)
    ensures Loaded(rawCookie, cookiesFile) != map[] && health.HealthResponse? && !CookieHealthy(health.status, health.finalUrl)
        ==> outcome == Failure("Cookie health check failed")
    ensures outcome.Ok? ==> outcome.value.1 == VulnSummary(probes.exposure)
    ensures outcome.Ok? ==> Gathered(outcome.value.0, username, probes, FetchProfileInfo(probes.profile, probes.sha1).value)
    ensures outcome.Ok? ==> Concluded(outcome.value.0)
  {
    var cookies := LoadCookies(rawCookie, cookiesFile);
    if cookies == map[] {
      return Failure("Cookie required (--cookie or --cookies-file)");
    }
    match health {
      case HealthRaised(message) =>
        return Failure(message);
      case HealthResponse(status, finalUrl) =>
        if !CookieHealthy(status, finalUrl) {
          return Failure("Cookie health check failed");
        }
    }
    var investigated, _ := InvestigateUsername(username, probes);
    if investigated.Failure? {
      return Failure(investigated.message);
    }
    var report := investigated.value;
    outcome := Ok((report, VulnSummary(report.vulnerabilityChecks.value)));
  }
}
