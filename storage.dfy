/**
 * The in-memory store (server/storage.ts): two maps from integer ids to
 * users and readings, each with its own auto-increment counter starting at 1.
 */
module Storage {
  import opened Wrappers
  import opened Schema

  /** The source types users as `any`; only the username is ever read. */
  datatype InsertUser = InsertUser(username: string, password: string)
  datatype User = User(id: int, username: string, password: string)

  class MemStorage {
    var users: map<int, User>
    /** The keys of `users` in insertion order, the order in which its values are enumerated. */
    var userKeys: seq<int>
    var sajuReadings: map<int, SajuReading>
    var currentUserId: int
    var currentReadingId: int

    /**
     * The ids handed out so far are exactly 1 up to the counter, each
     * stored under itself; users were inserted in increasing id order.
     */
    ghost predicate Valid()
      reads this
    {
      && currentUserId >= 1
      && currentReadingId >= 1
      && |userKeys| == currentUserId - 1
      && (forall k :: 0 <= k < |userKeys| ==> userKeys[k] == k + 1)
      && (forall id :: id in users <==> 1 <= id < currentUserId)
      && (forall id :: id in users ==> users[id].id == id)
      && (forall id :: id in sajuReadings <==> 1 <= id < currentReadingId)
      && (forall id :: id in sajuReadings ==> sajuReadings[id].id == id)
    }

    constructor ()
      ensures Valid()
      ensures users == map[] && userKeys == [] && sajuReadings == map[]
      ensures currentUserId == 1 && currentReadingId == 1
    {
      users := map[];
      userKeys := [];
      sajuReadings := map[];
      currentUserId := 1;
      currentReadingId := 1;
    }

    /** A user id that was handed out finds its user; any other id finds nothing. */
    function GetUser(id: int): (r: Option<User>)
      reads this
      requires Valid()
      ensures r.Some? <==> 1 <= id < currentUserId
      ensures r.Some? ==> r.value.id == id && r.value == users[id]
    {
      if id in users then Some(users[id]) else None
    }

    /**
     * The first user, in insertion order, whose username matches; since ids
     * were inserted in increasing order, that is the matching user with the
     * smallest id.
     */
    method GetUserByUsername(username: string) returns (r: Option<User>)
      requires Valid()
      ensures r.Some? ==>
        && r.value.id in users && users[r.value.id] == r.value
        && r.value.username == username
        && forall id :: id in users && id < r.value.id ==> users[id].username != username
      ensures r.None? ==> forall id :: id in users ==> users[id].username != username
    {
      var k := 0;
      while k < |userKeys|
        invariant 0 <= k <= |userKeys|
        invariant forall id :: id in users && id < k + 1 ==> users[id].username != username
      {
        var user := users[userKeys[k]];
        if user.username == username {
          return Some(user);
        }
        k := k + 1;
      }
      return None;
    }

    /** Stores the user under the next user id and returns it; readings are untouched. */
    method CreateUser(insertUser: InsertUser) returns (user: User)
      requires Valid()
      modifies this
      ensures Valid()
      ensures user == User(old(currentUserId), insertUser.username, insertUser.password)
      ensures user.id !in old(users)
      ensures currentUserId == old(currentUserId) + 1
      ensures users == old(users)[user.id := user]
      ensures userKeys == old(userKeys) + [user.id]
      ensures GetUser(user.id) == Some(user)
      ensures sajuReadings == old(sajuReadings) && currentReadingId == old(currentReadingId)
    {
      var id := currentUserId;
      currentUserId := currentUserId + 1;
      user := User(id, insertUser.username, insertUser.password);
      users := users[id := user];
      userKeys := userKeys + [id];
    }

    /** A reading id that was handed out finds its reading; any other id finds nothing. */
    function GetSajuReading(id: int): (r: Option<SajuReading>)
      reads this
      requires Valid()
      ensures r.Some? <==> 1 <= id < currentReadingId
      ensures r.Some? ==> r.value.id == id && r.value == sajuReadings[id]
    {
      if id in sajuReadings then Some(sajuReadings[id]) else None
    }

    /**
     * Stores the reading under the next reading id with the given creation
     * time and returns it. The id was never issued before, every other
     * reading and all users stay as they were, and looking the id up gives
     * the new record back.
     */
    method CreateSajuReading(reading: InsertSajuReading, createdAt: int) returns (stored: SajuReading)
      requires Valid()
      modifies this
      ensures Valid()
      ensures stored == SajuReading(old(currentReadingId), reading, createdAt)
      ensures stored.id !in old(sajuReadings)
      ensures currentReadingId == old(currentReadingId) + 1
      ensures sajuReadings == old(sajuReadings)[stored.id := stored]
      ensures GetSajuReading(stored.id) == Some(stored)
      ensures forall id :: id != stored.id ==> GetSajuReading(id) == old(GetSajuReading(id))
      ensures users == old(users) && userKeys == old(userKeys) && currentUserId == old(currentUserId)
    {
      var id := currentReadingId;
      currentReadingId := currentReadingId + 1;
      stored := SajuReading(id, reading, createdAt);
      sajuReadings := sajuReadings[id := stored];
    }
  }
}
