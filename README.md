# Instagram OSINT correlation core, in Dafny

This project models the decision logic of a command-line Instagram OSINT tool
(`yesitsme`). Given a username, the tool is written to:

- resolves the account id and fetches the profile;
- checks the same username on six other platforms;
- reads the public Twitter/X page;
- runs Bing searches for leak mentions;
- builds search-engine dorks;
- scores how strongly the signals correlate, on a 0.0–1.0 confidence scale;
- grades that confidence as a LOW, MEDIUM or HIGH risk.

Next to the pipeline sit:

- the cookie loader and the cookie health rule;
- two trackers that keep, per user id, an append-only history of usernames and of avatar URLs.

Modelling choices:

- Confidence is an integer number of hundredths (0.25 is `25`). Every weight
  is a whole number of hundredths, so Python's `round(min(score, 1.0), 2)`
  is exact.
- Network responses, hash functions and regular-expression matchers are
  **inputs**:
  - a `FetchOutcome` (status and text, or the exception raised) per GET;
  - a `JsonFetch` for the Instagram API;
  - hex-digest functions `Sha1Hex` / `Sha256Hex`;
  - `string -> seq<string>` extractors.

  The contracts hold for every value of these inputs.
- The two trackers update a dictionary in place, so each is a `class`. The
  JSON file behind each tracker is its `map` field. Both share one
  compare-and-append rule, `History.Observe`.
- The loops of the source are kept as `method`s with loop invariants:
  - the cookie loops;
  - the dork assembly;
  - the URL, domain and pattern loops of the Twitter step;
  - the leak-search loop;
  - the presence loop.

  Each is proved against a specification function or set.
- Python's `sorted(set(xs))` is `Order.SortDistinct` on code-point order.
  `Order.SortedUnique` shows that a strictly sorted list is determined by its
  set. So "sorted, with exactly these elements" pins the result down.

Files:

| file | models |
|---|---|
| `order.dfy`, `text.dfy` | Python string order, `sorted(set())`, `split`, `split(sep, 1)`, `replace`, `strip`, `in`, `lower`, `format` |
| `probe.dfy`, `schema.dfy` | fetch outcomes, JSON values, digests; the report record and its parts |
| `confidence.dfy`, `risk.dfy`, `scoring.dfy`, `timeline.dfy` | `utils/confidence.py`, `utils/risk.py`, `utils/scoring.py`, `utils/timeline.py` |
| `history.dfy`, `username_history.dfy`, `avatar.dfy` | `utils/username_history.py`, `utils/avatar.py` |
| `variants.dfy`, `cookies.dfy` | `utils/variants.py`, `utils/cookies.py` |
| `dorks.dfy`, `usernames.dfy`, `twitter.dfy`, `leaks.dfy` | the `enrich/` modules of the same names |
| `instagram.dfy` | `core/instagram.py` |
| `pipeline.dfy` | `main.py`: the report skeleton, `investigate_username`, `main` |

### Behaviour of the code worth knowing

- **Confidence range.** The investigation copies the `avatar_changed: True`
  baseline and never calls the avatar tracker. `generate_variants` always
  returns at least the username. So a finished report always carries the id
  and variants signals (0.30) and never the avatar signal.
  `Pipeline.PipelineConfidenceRange` proves that pipeline confidence lies
  between 0.30 and 0.80.
- **Reachable grades.** Because of that, a finished report with only an id
  scores 0.30 (LOW), not 0.25. A report with an id, Twitter presence and an
  external URL has a "consistent" timeline (Twitter presence alone makes
  it so) and scores 25 + 20 + 10 + 10 + 5 = 0.70 (MEDIUM). The 0.10 of an
  unchanged avatar, which would lift it to HIGH, can never be earned in the
  pipeline, and the variants always add 0.05.
- **Avatar hash.** The avatar tracker hashes the URL text, not the image. A
  changed query string therefore registers as a new avatar
  (`Avatar.SecondUrlUnchangedIffSameHash`).
- **Twitter URL filter.** The filter on Twitter page URLs is a substring
  test. It also drops other hosts whose name contains `x.com`, such as
  `www.dropbox.com` (`Twitter.SubstringFilterDropsDropbox`).

## Model

| member | source | states |
|---|---|---|
| Confidence.CalculateConfidence | utils/confidence.py:3-34 | the accumulated score equals the sum of the weights of the signals present, and lies in 0..100 |
| Confidence.ScoreIsSumOfPresentWeights | utils/confidence.py:12-32 | the score is 25·id + 20·twitter + 10·consistent timeline + 5·variants + 10·(avatar_changed is False) + 10·external URL + 10·emails |
| Confidence.ScoreAtMostNinety | utils/confidence.py:34 | the weights sum to 0.90, so the score never exceeds 90 and the clamp to 1.0 never binds |
| Confidence.ScoreMonotone | utils/confidence.py:12-32 | a report carrying every signal of another scores at least as much |
| Confidence.SignalAddsItsWeight | utils/confidence.py:12-32 | switching one signal on, others equal, adds exactly that signal's weight |
| Confidence.AvatarTermNeedsExplicitFalse | utils/confidence.py:25-26 | a missing or True `avatar_changed` earns nothing; False earns exactly 0.10 more |
| Confidence.ScoreReadsOnlySevenFields | utils/confidence.py:12-32 | two reports that agree on the seven tested keys score the same |
| Confidence.NoSignalScoresZero | utils/confidence.py:9-34 | a report with every tested key falsy scores 0 |
| Risk.CalculateRisk | utils/risk.py:3-25 | HIGH iff confidence ≥ 0.75, MEDIUM iff 0.45 ≤ c < 0.75, LOW iff c < 0.45, each with its fixed explanation |
| Risk.RiskMonotone | utils/risk.py:10-25 | a higher confidence never gives a lower grade |
| Risk.RiskReadsOnlyConfidence | utils/risk.py:8 | the grade depends on the confidence key alone |
| Risk.MissingConfidenceIsLow | utils/risk.py:8 | a report without a confidence key (default 0.0) is LOW |
| Scoring.ScoreConfidence | utils/scoring.py:7-11 | delegates to the confidence score: equals it and lies in 0..90 |
| Scoring.GradeRisk | utils/scoring.py:14-18 | delegates to `calculate_risk` and is always one of the three grades |
| Scoring.GradeRiskReadsOnlyConfidence | utils/scoring.py:14-18 | reports with equal confidence get equal grades |
| Timeline.TimelineConsistency | utils/timeline.py:1-9 | "consistent" iff Twitter exists and followers > 300; "partial" iff Twitter exists with ≤ 300; "insufficient" iff no Twitter |
| Timeline.TimelineMonotone | utils/timeline.py:5-9 | more followers never lower the verdict |
| Timeline.ThresholdIsStrict | utils/timeline.py:5 | 300 followers is "partial", 301 is "consistent" |
| History.Observe | utils/username_history.py:26-35 | the entry is appended and a change reported exactly when the history is empty or its last entry has another fingerprint; otherwise the history is kept and no change reported (the same rule as utils/avatar.py:36-48) |
| History.FirstObservation | utils/username_history.py:26-35 | the first observation of an id gives a one-element history and reports a change |
| History.AppendOnly | utils/username_history.py:28-31 | the old history is a prefix of the new one, which is at most one longer |
| History.TailMatches | utils/username_history.py:28-31 | after an observation the history is non-empty and its last entry has the observed fingerprint |
| History.Idempotent | utils/username_history.py:28-29 | observing the same fingerprint twice in a row changes nothing the second time |
| History.OnlyTailCompared | utils/username_history.py:28 | only the last entry is compared: a, b, a records three entries |
| UsernameHistory.UsernameStore.TrackUsername | utils/username_history.py:19-35 | returns the compare-and-append result for the stored history; on change the id's entry is replaced, else the store is unchanged; other ids keep theirs |
| UsernameHistory.UsernameStore.constructor | utils/username_history.py:7-11 | the store starts as the loaded dictionary |
| UsernameHistory.TrackTwice | utils/username_history.py:28-35 | tracking the same name twice reports a change at most the first time, and the second call changes nothing |
| Avatar.HashUrl | utils/avatar.py:10-11 | 16 lower-case hex characters, the first 16 of the SHA-256 digest of the URL |
| Avatar.AvatarIndex.TrackAvatar | utils/avatar.py:27-50 | compare-and-append on the URL hash; on change the id's entry is replaced with `{hash, url}` appended, else the index is unchanged; other ids keep theirs |
| Avatar.AvatarIndex.constructor | utils/avatar.py:14-18 | the index starts as the loaded dictionary |
| Avatar.SecondUrlUnchangedIffSameHash | utils/avatar.py:34-39 | after one URL, a second reports no change exactly when its hash equals the first one's |
| Variants.UsernameVariants | utils/variants.py:1-11 | no duplicates, exactly the seven forms as a set, contains the username, 1 to 7 entries |
| Variants.BaseHasNoSeparators | utils/variants.py:2 | the base form holds neither `.` nor `_` |
| Variants.GeneratorsShareForms | utils/variants.py:1-11 | both variant generators produce the username and its dot-less and underscore-less forms |
| Usernames.VariantBase | enrich/usernames.py:10 | the username splits into a run of `_`, a middle that neither starts nor ends with `_`, and a run of `_`; the base is that middle with every `.` removed |
| Usernames.GenerateVariants | enrich/usernames.py:9-21 | strictly sorted, exactly the eight forms as a set, contains the username, 1 to 8 entries |
| Usernames.GenerateVariantsCanonical | enrich/usernames.py:21 | any strictly sorted list of the eight forms is the result, so the output is determined by the set |
| Usernames.StripBeforeDotRemoval | enrich/usernames.py:10 | underscores are stripped before dots are removed: `"._x"` gives `"_x"` |
| Usernames.ClassifyPresence | enrich/usernames.py:38-52 | found iff the GET answered 200, 301 or 302; the record keeps the URL and the status code or the error text |
| Usernames.CheckUsernamePresence | enrich/usernames.py:24-57 | the result has exactly the six platform keys, each the classification of the GET of its URL |
| Usernames.TwitterFoundIff | enrich/usernames.py:27 | after the presence check, Twitter exists iff the GET of `https://x.com/<username>` answered 200, 301 or 302 |
| DorkGen.AvatarToken | enrich/dorks.py:48 | the token holds no `/` and no `?`; it follows the last `/` of the URL (or starts it) and is followed by nothing or by `?` |
| DorkGen.LastSegmentToken | enrich/dorks.py:48 | the first `?`-piece of the last `/`-segment sits between the last `/` and the rest of the URL, which starts with `?` or is empty |
| DorkGen.NameDorks | enrich/dorks.py:16-30 | the Google and Bing lists hold exactly the six and three templates of every name |
| DorkGen.AddAvatarDorks | enrich/dorks.py:45-50 | adds exactly the quoted tokens of the avatars with a non-empty URL to both lists |
| DorkGen.GenerateDorks | enrich/dorks.py:3-56 | both lists strictly sorted, with exactly the name, bio, id (Google only) and avatar dorks as their sets |
| DorkGen.DorksDeterministic | enrich/dorks.py:52-54 | any two results meeting that contract are equal, whatever the set iteration order |
| DorkGen.GoogleForDistinct | enrich/dorks.py:17-24 | the six Google templates of a name are pairwise distinct |
| DorkGen.BingForDistinct | enrich/dorks.py:26-30 | the three Bing templates of a name are pairwise distinct |
| DorkGen.UsernameOnlyCounts | enrich/dorks.py:3-56 | with only the username as a name and no bio, id or avatar URL, there are exactly 6 Google and 3 Bing dorks |
| Twitter.FilterUrls | enrich/twitter.py:65-67 | keeps exactly the matches not containing `x.com` |
| Twitter.CollectDomains | enrich/twitter.py:72-78 | exactly the third `/`-piece of every URL that has one |
| Twitter.ExpandPatterns | enrich/twitter.py:80-85 | three patterns per domain, exactly the `first@`, `first.last@`, `<username>@` guesses |
| Twitter.TwitterDeepOsint | enrich/twitter.py:11-90 | a raised GET or a non-200 status gives the default result; on 200: exists, deduplicated emails, sorted kept URLs, three patterns per domain |
| Twitter.PatternsCoverEveryUrl | enrich/twitter.py:72-85 | every kept URL with an authority has its three guesses among the patterns |
| Twitter.SubstringFilterDropsDropbox | enrich/twitter.py:66 | a `www.dropbox.com` link is dropped by the `x.com` filter |
| Twitter.AuthorityOfUrl | enrich/twitter.py:75 | for `scheme//authority/path` the domain is the authority |
| Leaks.QueryUrl | enrich/leaks.py:42 | the URL is the Bing search prefix followed by the query, character for character, with each space turned into `+`; no space follows the prefix |
| Leaks.CheckLeakSignals | enrich/leaks.py:14-63 | the signals are, in template order, one `{query, bing}` per template whose GET answered 200 with the lowercased username in the lowercased page |
| Leaks.AtMostOnePerTemplate | enrich/leaks.py:40-58 | never more signals than templates |
| Leaks.SignalIffHit | enrich/leaks.py:40-58 | a signal is present iff it is the query of some template whose search hit |
| Leaks.AllFailuresGiveNoSignals | enrich/leaks.py:44-52 | when every search raises or answers non-200 there are no signals |
| Leaks.PastebinQuery | enrich/leaks.py:5 | the first query is `site:pastebin.com <username>` |
| Leaks.PasswordQuery | enrich/leaks.py:9 | the password query keeps the template's trailing stray quote |
| Cookies.AssignRaw | utils/cookies.py:15-19 | the loop over the `;`-parts builds exactly `Assign(RawPairs(parts))`: each part holding `=` sets its stripped name to its value, later parts winning |
| Cookies.AssignExport | utils/cookies.py:31-33 | the loop over the export entries builds exactly `Assign(ExportPairs(entries))`: each entry with both `name` and `value` sets that name, later entries winning |
| Cookies.Pair | utils/cookies.py:18 | the name holds no `=`, and name `=` value is the stripped part |
| Cookies.AssignDefinedIff | utils/cookies.py:16-19 | a name is set iff some pair carries it |
| Cookies.AssignLastWins | utils/cookies.py:19 | a name gets the value of its last pair |
| Cookies.LoadCookies | utils/cookies.py:5-35 | returns `Loaded`: a non-empty raw string wins and gives its `k=v` parts in order; otherwise a dict file is taken whole, a list file gives its entries with both `name` and `value`, anything else gives none |
| Cookies.RawPairsEmptyIff | utils/cookies.py:15-19 | the raw parts define no pair iff none of them holds `=` |
| Cookies.RawCookiesEmptyIff | utils/cookies.py:14-19 | a non-empty raw string loads no cookies iff none of its `;`-parts holds `=`, whatever the file |
| Cookies.NoCookieSources | utils/cookies.py:5-35 | no source, `""`, `"abc"`, an empty object file and an export without usable entries all load no cookies |
| Cookies.PairSplitsAtFirstEquals | utils/cookies.py:18 | `name=value` with `=` signs in the value splits at the first `=` |
| Cookies.CookieHealthy | utils/cookies.py:67 | healthy iff status 200 and `login` occurs nowhere in the final URL |
| Instagram.ResolveUserId | core/instagram.py:29-51 | fails iff the GET raised; a non-200 status or a body without a string `data.user.id` gives no id; otherwise the id at that path |
| Instagram.ProfilePic | core/instagram.py:71 | the HD picture URL when present and non-empty, else the plain one |
| Instagram.PicHash | core/instagram.py:86 | 16 hex characters: the SHA-1 prefix of the picture URL, of `""` when there is none |
| Instagram.FetchProfileInfo | core/instagram.py:54-87 | fails iff the GET raised, or a 200 body is not an object or its `user` is not an object; a non-200 status gives `{}`; otherwise the record built field by field from the `user` object (or from `{}` when there is none), with a 16-character picture hash |
| Instagram.FetchedCountsFromUser | core/instagram.py:70-79 | a 200 response copies `full_name`, `follower_count`, `following_count` and `media_count` of the `user` object into the record |
| Instagram.MissingUserGivesDefaults | core/instagram.py:70-87 | a 200 object without `user` gives the all-defaults record with the hash of `""` |
| Instagram.HdPictureWins | core/instagram.py:71 | a non-empty HD URL is the picture and is what gets hashed |
| Instagram.NoPictureHashesEmpty | core/instagram.py:71-86 | without picture keys there is no picture and the hash is that of `""` |
| Instagram.InferTimelineConsistency | core/instagram.py:90-94 | "consistent" iff Twitter exists, otherwise "unknown" |
| Instagram.ClassifiersCompared | core/instagram.py:90-94 | the pipeline says "consistent" exactly when the follower-based heuristic would not say "insufficient", and ignores the follower count |
| Pipeline.BuildReportBase | main.py:69-106 | the baseline report: the username is its own one-entry history, both change flags are set, the avatar history is empty, the profile fields hold their empty defaults and none of the seven confidence fields holds a scoring value |
| Pipeline.BaseReportScoresZero | main.py:69-106 | the second report skeleton scores 0, grades LOW, has history `[username]` and both change flags True |
| Pipeline.ProfileFrom | main.py:137-151 | no profile gives the skeleton's defaults; a `None` external URL becomes `""` |
| Pipeline.ApplyProfile | main.py:138-158 | sets the profile keys and the avatar baseline entry (only when there is a picture) and nothing else |
| Pipeline.TwitterStep | main.py:173-178 | runs the Twitter step exactly when Twitter exists and appends its emails; changes nothing else |
| Pipeline.Conclude | main.py:186-194 | sets timeline, dorks, confidence and risk from the report; changes nothing else |
| Pipeline.ConcludeKeepsGathered | main.py:186-194 | the concluding steps keep what the earlier steps gathered |
| Pipeline.Gather | main.py:119-184 | succeeds iff a non-empty id resolved and the profile fetch did not fail; stops after resolving on a missing id; otherwise each key is as its probe gave it, in stage order |
| Pipeline.InvestigateUsername | main.py:109-196 | succeeds iff a non-empty id resolved and the profile fetch did not fail; stops right after resolving on a missing id; otherwise the report is gathered and concluded, in stage order |
| Pipeline.PipelineConfidenceRange | main.py:161-193 | a finished report's confidence lies between 0.30 and 0.80 |
| Pipeline.TimelineTracksTwitter | main.py:187 | in a finished report the timeline signal fires exactly when the Twitter signal does |
| Pipeline.VulnSummary | main.py:237-240 | "VULNERABLE" iff either exposure flag is set, else "NOT_VULNERABLE" |
| Pipeline.Run | main.py:218-240 | succeeds iff cookies load, the health check answers healthy, the id resolves and the profile fetch does not fail; no loaded cookies stops with "Cookie required", a raising check with its exception, an unhealthy one with "Cookie health check failed"; on success the report is gathered and concluded and the summary matches the exposure flags |
| Order.Less | enrich/dorks.py:53-54 | Python's `<` on strings: `a` is a proper prefix of `b`, or at the first index where they differ `a` has the smaller code point |
| Order.SortDistinct | enrich/dorks.py:53-54 | `sorted(set(xs))`: strictly ascending, same elements, no longer than the input |
| Order.SortedUnique | enrich/dorks.py:53-54 | two strictly ascending lists with the same elements are equal |
| Text.Split | utils/cookies.py:15 | `split(sep)` gives at least one piece and no piece holds the separator; `Text.JoinSplit` is its inverse |
| Text.SplitCount | utils/cookies.py:15 | `split(sep)` gives one piece more than there are separators in the string |
| Text.SplitOnce | utils/cookies.py:18 | `split(sep, 1)`: the two parts rejoin to the input and the first holds no separator |
| Text.JoinSplit | utils/cookies.py:15 | joining the pieces of `split` with the separator gives back the string |
| Text.Without | utils/variants.py:2 | `replace(c, "")` keeps exactly the other characters and is never longer |
| Text.WithoutConcat | utils/variants.py:2 | removing a character distributes over concatenation, so the kept characters stay in order |
| Text.WithoutOne | utils/variants.py:2 | on one character, the removed character gives nothing and any other is kept |
| Text.WithoutKeepsOrder | enrich/usernames.py:10 | removing `.` from `b.a` gives `ba`, not a reordering |
| Text.StripParts | enrich/usernames.py:10 | `strip` leaves a middle part between a leading and a trailing run of stripped characters, and the middle neither starts nor ends with one |
| Text.ContainsAt | utils/cookies.py:67 | Python's `in` on strings holds iff the substring occurs at some index |
| Text.FormatOneField | enrich/leaks.py:41 | `format(u=…)` on a one-field template substitutes the field and keeps the rest |

## Left out

- Network I/O, `async`, timeouts, headers and redirects are not modelled. Every GET is an input outcome: a status with a final URL and text, or a raised exception.
- File I/O is not modelled. The username history file and the avatar `index.json` are the trackers' map fields. The cookies file is its already parsed JSON value. `json.load` errors are not modelled.
- SHA-1 and SHA-256 are not modelled. They are input functions returning 40 or 64 lower-case hex characters.
- Regular expressions are not modelled. `EMAIL_REGEX.findall` and the URL `findall` are input extractors.
- Debug printing, the banner, argument parsing and the printed summary are not modelled. `Pipeline.Run` returns the report and the vulnerability summary string instead.
- `check_private_content_exposure` and `check_username_presence_advanced` are imported by `main.py` but not defined in the repository. As written, `main.py` therefore cannot start: the imports at main.py:12-22 raise ImportError before anything runs. The model describes what the code does once those two functions exist, and their results are inputs of the pipeline.
- `main.py` line 269 calls `.get` on the list that `check_leak_signals` returns, which raises, so the Pastebin printout and everything after it are not modelled. Report saving (line 287) is never reached; its three-argument call would bind the JSON path to `save_reports`' `username` parameter and the Markdown path to `json_path` (reports/render.py:4).
- `core/http.py`, `core/dumpor.py`, `enrich/links.py` and `reports/render.py` are not part of this model.
- The first `build_report_base` in `main.py` is shadowed by the second, so only the second is modelled.
- Instagram.ResolveUserId: a JSON id that is not a string is treated as missing, and `str(user_id)` in the trackers is the identity.
- Instagram.FetchProfileInfo: a profile field with an unexpected JSON type takes the key's default instead of being copied through.
- Cookies.LoadCookies: dictionary values are strings, and list entries that are not objects are not modelled. In the source, line 32 tests such an entry with `in`. A string or list entry that lacks `name` or `value` is skipped. One that contains both passes that test and then raises TypeError at `c["name"]` on line 33. A number, boolean or `null` entry raises at line 32.
- Text.LowerAscii: lowercases ASCII letters only. Python's `lower` also folds other scripts.
- Text.FormatU: models only the `{u}` replacement field, the only one the templates use.
- Variants.UsernameVariants: Python set order is not modelled. The contract fixes the elements and that there are no duplicates, but not their order.
- Twitter.TwitterDeepOsint: the email list comes from `list(set(...))`, so only its elements and distinctness are promised, not its order. The `email_patterns` list follows iteration over the `domains` set (enrich/twitter.py:72-85), so only its length and elements are promised, not its order. The bio and pinned text are never filled in by the source.
- UsernameHistory.UsernameStore.TrackUsername: the tracker is not called from `main.py`, so the pipeline's `username_changed` stays True.
- Avatar.AvatarIndex.TrackAvatar: the tracker is not called from `main.py`, so the pipeline's `avatar_changed` stays True.
