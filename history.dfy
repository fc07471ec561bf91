/** The compare-and-append rule shared by utils/username_history.py and
    utils/avatar.py: a new observation is appended to a user's history
    only when it differs from the last one recorded. Entries are compared
    through a fingerprint: the name itself for usernames, the URL hash for
    avatars. */
module History {

  /** The new history and whether it changed: the entry is appended, and
      the change reported, exactly when the history is empty or its last
      entry has another fingerprint. */
  function Observe<E, K(==)>(history: seq<E>, entry: E, fingerprint: E -> K): (r: (seq<E>, bool))
    ensures r.1 <==> history == [] || fingerprint(history[|history| - 1]) != fingerprint(entry)
    ensures r.0 == if r.1 then history + [entry] else history
  {
    if history != [] && fingerprint(history[|history| - 1]) == fingerprint(entry) then
      (history, false)
    else
      (history + [entry], true)
  }

  /** The first observation for a user establishes the baseline and counts
      as a change. */
  lemma FirstObservation<E, K>(entry: E, fingerprint: E -> K)
    ensures Observe([], entry, fingerprint) == ([entry], true)
  {
    assert [] + [entry] == [entry];
  }

  /** Histories only grow at the end: the old history is a prefix of the
      new one, which is one entry longer exactly when `changed` holds. */
  lemma AppendOnly<E, K>(history: seq<E>, entry: E, fingerprint: E -> K)
    ensures history <= Observe(history, entry, fingerprint).0
    ensures |Observe(history, entry, fingerprint).0|
         == |history| + (if Observe(history, entry, fingerprint).1 then 1 else 0)
  {
  }

  /** After an observation the tail has the observed fingerprint. */
  lemma TailMatches<E, K>(history: seq<E>, entry: E, fingerprint: E -> K)
    ensures var h := Observe(history, entry, fingerprint).0;
      h != [] && fingerprint(h[|h| - 1]) == fingerprint(entry)
  {
  }

  /** Re-running with the same value (or one with the same fingerprint)
      reports no change and leaves the history as it is. */
  lemma Idempotent<E, K>(history: seq<E>, e1: E, e2: E, fingerprint: E -> K)
    requires fingerprint(e1) == fingerprint(e2)
    ensures var h := Observe(history, e1, fingerprint).0;
      Observe(h, e2, fingerprint) == (h, false)
  {
    TailMatches(history, e1, fingerprint);
  }

  /** Only the tail is compared: A, B, A gives the history [A, B, A]. */
  lemma OnlyTailCompared<E, K>(a: E, b: E, fingerprint: E -> K)
    requires fingerprint(a) != fingerprint(b)
    ensures Observe(Observe(Observe([], a, fingerprint).0, b, fingerprint).0, a, fingerprint)
         == ([a, b, a], true)
  {
    assert [] + [a] == [a] && [a] + [b] == [a, b] && [a, b] + [a] == [a, b, a];
  }
}
