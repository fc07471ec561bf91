/** utils/username_history.py: the persisted per-user-id list of observed
    usernames. The JSON file is the `data` field; loading and saving it are
    reading and assigning the field. */
module UsernameHistory {
  import opened History

  /** Usernames are compared as they are. */
  function SameName(name: string): string
  {
    name
  }

  class UsernameStore {
    /** username_history.json: user id to the names seen, oldest first. */
    var data: map<string, seq<string>>

    constructor (stored: map<string, seq<string>>)
      ensures data == stored
    {
      data := stored;
    }

    /** `data.get(user_id, [])`. */
    function Stored(userId: string): seq<string>
      reads this
    {
      if userId in data then data[userId] else []
    }

    /** `track_username`: compare with the tail, append and save if
        different. The history of every other user is left as it was. */
    method TrackUsername(userId: string, currentUsername: string) returns (history: seq<string>, changed: bool)
      modifies this
      ensures (history, changed) == Observe(old(Stored(userId)), currentUsername, SameName)
      ensures changed ==> data == old(data)[userId := history]
      ensures !changed ==> data == old(data)
      ensures forall k :: k in old(data) && k != userId ==> k in data && data[k] == old(data)[k]
    {
      history := Stored(userId);
      if history != [] && history[|history| - 1] == currentUsername {
        return history, false;
      }
      history := history + [currentUsername];
      data := data[userId := history];
      changed := true;
    }
  }

  /** Two consecutive runs with the same name: the second reports no
      change and leaves the store as the first left it. */
  method TrackTwice(store: UsernameStore, userId: string, name: string)
    returns (first: bool, second: bool)
    modifies store
    ensures first <==> (old(store.Stored(userId)) == [] || old(store.Stored(userId))[|old(store.Stored(userId))| - 1] != name)
    ensures !second
    ensures store.Stored(userId) == Observe(old(store.Stored(userId)), name, SameName).0
  {
    var h1, h2;
    h1, first := store.TrackUsername(userId, name);
    h2, second := store.TrackUsername(userId, name);
    Idempotent(old(store.Stored(userId)), name, name, SameName);
  }
}
