/** utils/timeline.py: the three-way follower-threshold timeline
    classifier. (main.py uses the two-way classifier of core/instagram.py
    instead; see `Instagram.InferTimelineConsistency`.) */
module Timeline {

  /** `timeline_consistency`. */
  function TimelineConsistency(instaFollowers: int, twitterExists: bool): (verdict: string)
    ensures verdict == "consistent" <==> twitterExists && instaFollowers > 300
    ensures verdict == "partial" <==> twitterExists && instaFollowers <= 300
    ensures verdict == "insufficient" <==> !twitterExists
  {
    if twitterExists && instaFollowers > 300 then "consistent"
    else if twitterExists then "partial"
    else "insufficient"
  }

  /** insufficient < partial < consistent. */
  function Rank(verdict: string): int
  {
    if verdict == "consistent" then 2 else if verdict == "partial" then 1 else 0
  }

  /** With the Twitter flag fixed, more followers never give a weaker
      verdict. */
  lemma TimelineMonotone(f1: int, f2: int, twitterExists: bool)
    requires f1 <= f2
    ensures Rank(TimelineConsistency(f1, twitterExists)) <= Rank(TimelineConsistency(f2, twitterExists))
  {
  }

  /** Exactly 300 followers is not enough. */
  lemma ThresholdIsStrict()
    ensures TimelineConsistency(300, true) == "partial"
    ensures TimelineConsistency(301, true) == "consistent"
  {
  }
}
