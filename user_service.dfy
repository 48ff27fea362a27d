/** The in-memory user repository: a module-level array of users, read by lookups
    and changed in place only by `updateUser`. */
module UserService {
  import opened Wrappers
  import opened SeqUtil

  datatype User = User(
    Id: int,
    username: string,
    displayName: Option<string>,
    bio: string,
    avatar: string,
    followersCount: int,
    followingCount: int,
    postsCount: int)

  /** The argument of `updateUser`: the keys present in the object being spread. */
  datatype UserPatch = UserPatch(
    Id: Option<int>,
    username: Option<string>,
    displayName: Option<string>,
    bio: Option<string>,
    avatar: Option<string>,
    followersCount: Option<int>,
    followingCount: Option<int>,
    postsCount: Option<int>)

  function HasId(id: int): User -> bool
  {
    (u: User) => u.Id == id
  }

  function HasUsername(username: string): User -> bool
  {
    (u: User) => u.username == username
  }

  /** `{ ...u, ...patch }`: every supplied key overwrites, the id included. */
  function ApplyPatch(u: User, patch: UserPatch): (r: User)
    ensures patch.Id.Some? ==> r.Id == patch.Id.value
    ensures patch.Id.None? ==> r.Id == u.Id
    ensures patch.username.Some? ==> r.username == patch.username.value
    ensures patch.username.None? ==> r.username == u.username
    ensures patch.displayName.Some? ==> r.displayName == patch.displayName
    ensures patch.displayName.None? ==> r.displayName == u.displayName
    ensures patch.bio.Some? ==> r.bio == patch.bio.value
    ensures patch.bio.None? ==> r.bio == u.bio
    ensures patch.avatar.Some? ==> r.avatar == patch.avatar.value
    ensures patch.avatar.None? ==> r.avatar == u.avatar
    ensures patch.followersCount.Some? ==> r.followersCount == patch.followersCount.value
    ensures patch.followersCount.None? ==> r.followersCount == u.followersCount
    ensures patch.followingCount.Some? ==> r.followingCount == patch.followingCount.value
    ensures patch.followingCount.None? ==> r.followingCount == u.followingCount
    ensures patch.postsCount.Some? ==> r.postsCount == patch.postsCount.value
    ensures patch.postsCount.None? ==> r.postsCount == u.postsCount
  {
    User(Override(patch.Id, u.Id),
         Override(patch.username, u.username),
         if patch.displayName.Some? then patch.displayName else u.displayName,
         Override(patch.bio, u.bio),
         Override(patch.avatar, u.avatar),
         Override(patch.followersCount, u.followersCount),
         Override(patch.followingCount, u.followingCount),
         Override(patch.postsCount, u.postsCount))
  }

  /** An empty patch changes nothing, and applying the same patch twice is applying
      it once. */
  lemma ApplyPatchLaws(u: User, patch: UserPatch)
    ensures patch == UserPatch(None, None, None, None, None, None, None, None) ==> ApplyPatch(u, patch) == u
    ensures ApplyPatch(ApplyPatch(u, patch), patch) == ApplyPatch(u, patch)
  {
  }

  class UserStore {
    var users: seq<User>

    constructor (initial: seq<User>)
      ensures users == initial
    {
      users := initial;
    }

    /** `getUsers`: a copy, same users in the same order. */
    method GetUsers() returns (r: seq<User>)
      ensures |r| == |users| && forall i :: 0 <= i < |r| ==> r[i] == users[i]
    {
      r := users;
    }

    /** `getUserById`: the first user with that id, or null. */
    method GetUserById(id: int) returns (r: Option<User>)
      ensures r.None? <==> forall j :: 0 <= j < |users| ==> users[j].Id != id
      ensures r.Some? ==> r.value.Id == id && r.value in users
      ensures r == Find(users, HasId(id))
    {
      r := Find(users, HasId(id));
    }

    /** `getUserByUsername`: the first user with that username, or null. */
    method GetUserByUsername(username: string) returns (r: Option<User>)
      ensures r.None? <==> forall j :: 0 <= j < |users| ==> users[j].username != username
      ensures r.Some? ==> r.value.username == username && r.value in users
      ensures r == Find(users, HasUsername(username))
    {
      r := Find(users, HasUsername(username));
    }

    /** `getCurrentUser`: the first user, `undefined` when there is none. */
    method GetCurrentUser() returns (r: Option<User>)
      ensures users == [] ==> r.None?
      ensures users != [] ==> r == Some(users[0])
    {
      if users == [] {
        r := None;
      } else {
        r := Some(users[0]);
      }
    }

    /** `updateUser`: merge the patch into the first user with that id. */
    method UpdateUser(id: int, patch: UserPatch) returns (r: Result<User>)
      modifies this
      ensures |users| == |old(users)|
      ensures FindIndex(old(users), HasId(id)).None? ==>
                r == Err("User not found") && users == old(users)
      ensures FindIndex(old(users), HasId(id)).Some? ==>
                var k := FindIndex(old(users), HasId(id)).value;
                r == Ok(ApplyPatch(old(users)[k], patch)) && users == old(users)[k := r.value]
    {
      match FindIndex(users, HasId(id))
      case None =>
        r := Err("User not found");
      case Some(k) =>
        var updated := ApplyPatch(users[k], patch);
        users := users[k := updated];
        r := Ok(updated);
    }
  }
}
