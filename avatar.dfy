/** utils/avatar.py: the persisted per-user-id list of `{hash, url}`
    avatar entries, compared by the hash of the picture URL. The index file
    is the `index` field; SHA-256 is a parameter of the index. */
module Avatar {
  import opened Probe
  import opened Schema
  import opened History

  /** `_hash_url`: the first 16 hex digits of the SHA-256 digest of the URL
      text. */
  function HashUrl(sha256: string -> Sha256Hex, url: string): (h: string)
    ensures |h| == 16
    ensures forall i :: 0 <= i < 16 ==> h[i] == sha256(url)[i]
    ensures forall c :: c in h ==> '0' <= c <= '9' || 'a' <= c <= 'f'
  {
    sha256(url)[..16]
  }

  /** Avatar entries are compared by their stored hash. */
  function EntryHash(e: AvatarEntry): string
  {
    e.hash
  }

  class AvatarIndex {
    /** avatars/index.json: user id to avatar entries, oldest first. */
    var index: map<string, seq<AvatarEntry>>
    const sha256: string -> Sha256Hex

    constructor (stored: map<string, seq<AvatarEntry>>, sha256: string -> Sha256Hex)
      ensures index == stored && this.sha256 == sha256
    {
      index := stored;
      this.sha256 := sha256;
    }

    /** `index.get(user_id, [])`. */
    function Stored(userId: string): seq<AvatarEntry>
      reads this
    {
      if userId in index then index[userId] else []
    }

    /** `track_avatar`: append `{hash, url}` and save unless the last
        entry already has this URL's hash. Existing entries and other
        users' histories are never modified. */
    method TrackAvatar(userId: string, profilePicUrl: string) returns (history: seq<AvatarEntry>, changed: bool)
      modifies this
      ensures (history, changed)
           == Observe(old(Stored(userId)), AvatarEntry(HashUrl(sha256, profilePicUrl), profilePicUrl), EntryHash)
      ensures changed ==> index == old(index)[userId := history]
      ensures !changed ==> index == old(index)
      ensures forall k :: k in old(index) && k != userId ==> k in index && index[k] == old(index)[k]
    {
      var currentHash := HashUrl(sha256, profilePicUrl);
      history := Stored(userId);
      if history != [] && history[|history| - 1].hash == currentHash {
        return history, false;
      }
      var entry := AvatarEntry(currentHash, profilePicUrl);
      history := history + [entry];
      index := index[userId := history];
      changed := true;
    }
  }

  /** A second URL registers as unchanged exactly when its hash equals the
      first one's; the hash is of the URL text, so a URL that differs only
      in its query string is a change unless the two digests agree. */
  lemma SecondUrlUnchangedIffSameHash(sha256: string -> Sha256Hex, history: seq<AvatarEntry>, url1: string, url2: string)
    ensures var h := Observe(history, AvatarEntry(HashUrl(sha256, url1), url1), EntryHash).0;
      !Observe(h, AvatarEntry(HashUrl(sha256, url2), url2), EntryHash).1
      <==> HashUrl(sha256, url1) == HashUrl(sha256, url2)
  {
    TailMatches(history, AvatarEntry(HashUrl(sha256, url1), url1), EntryHash);
  }
}
