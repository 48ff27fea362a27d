/** The in-memory post repository: a module-level array of posts, changed in place
    by create (at the front), update, delete, like and unlike. */
module PostService {
  import opened Wrappers
  import opened SeqUtil

  datatype Comment = Comment(Id: int, userId: int, text: string, timestamp: int)

  /** A post; `caption` and `filter` may be missing from a record, `timestamp` is in
      milliseconds. */
  datatype Post = Post(
    Id: int,
    userId: int,
    imageUrl: string,
    caption: Option<string>,
    filter: Option<string>,
    likes: int,
    comments: seq<Comment>,
    timestamp: int)

  /** The argument of `createPost`. A present `Id` is spread after the generated one
      and wins over it. */
  datatype PostDraft = PostDraft(
    Id: Option<int>,
    userId: int,
    imageUrl: string,
    caption: string,
    filter: string)

  /** The argument of `updatePost`: the keys present in the object being spread. */
  datatype PostPatch = PostPatch(
    Id: Option<int>,
    userId: Option<int>,
    imageUrl: Option<string>,
    caption: Option<string>,
    filter: Option<string>,
    likes: Option<int>,
    comments: Option<seq<Comment>>,
    timestamp: Option<int>)

  function HasId(id: int): Post -> bool
  {
    (p: Post) => p.Id == id
  }

  function ByUser(userId: int): Post -> bool
  {
    (p: Post) => p.userId == userId
  }

  function StampedAt(t: int): Post -> bool
  {
    (p: Post) => p.timestamp == t
  }

  function Ids(posts: seq<Post>): (ids: seq<int>)
    ensures |ids| == |posts|
    ensures forall i :: 0 <= i < |posts| ==> ids[i] == posts[i].Id
  {
    seq(|posts|, i requires 0 <= i < |posts| => posts[i].Id)
  }

  /** Sorted by timestamp, newest first. */
  predicate NewestFirst(s: seq<Post>)
  {
    forall i, j :: 0 <= i < j < |s| ==> s[i].timestamp >= s[j].timestamp
  }

  /** Insert `p` before the first post that is not newer than it. */
  function Insert(p: Post, s: seq<Post>): (r: seq<Post>)
    requires NewestFirst(s)
    ensures |r| == |s| + 1
    ensures r[0] == p || (s != [] && r[0] == s[0])
    ensures NewestFirst(r)
  {
    if s == [] || s[0].timestamp <= p.timestamp then [p] + s
    else
      var rest := Insert(p, s[1..]);
      assert s == [s[0]] + s[1..];
      assert s[0].timestamp >= rest[0].timestamp;
      [s[0]] + rest
  }

  /** The order `[...posts].sort((a, b) => b.timestamp - a.timestamp)` produces: a
      stable sort, newest first. */
  function SortNewestFirst(s: seq<Post>): (r: seq<Post>)
    ensures NewestFirst(r)
    ensures multiset(r) == multiset(s) && |r| == |s|
  {
    if s == [] then []
    else
      assert s == [s[0]] + s[1..];
      InsertPermutes(s[0], SortNewestFirst(s[1..]));
      Insert(s[0], SortNewestFirst(s[1..]))
  }

  /** Inserting adds exactly `p` to the posts. */
  lemma {:induction false} InsertPermutes(p: Post, s: seq<Post>)
    requires NewestFirst(s)
    ensures multiset(Insert(p, s)) == multiset(s) + multiset{p}
  {
    if s != [] && s[0].timestamp > p.timestamp {
      InsertPermutes(p, s[1..]);
      assert s == [s[0]] + s[1..];
    }
  }

  lemma {:induction false} InsertKeepsTies(p: Post, s: seq<Post>, t: int)
    requires NewestFirst(s)
    ensures Filter(Insert(p, s), StampedAt(t)) ==
            (if p.timestamp == t then [p] else []) + Filter(s, StampedAt(t))
  {
    if s == [] || s[0].timestamp <= p.timestamp {
      assert ([p] + s)[0] == p && ([p] + s)[1..] == s;
    } else {
      var rest := Insert(p, s[1..]);
      assert Insert(p, s) == [s[0]] + rest;
      assert ([s[0]] + rest)[1..] == rest;
      InsertKeepsTies(p, s[1..], t);
    }
  }

  /** Stability: posts with equal timestamps keep their relative order. */
  lemma {:induction false} SortIsStable(s: seq<Post>, t: int)
    ensures Filter(SortNewestFirst(s), StampedAt(t)) == Filter(s, StampedAt(t))
  {
    if s != [] {
      SortIsStable(s[1..], t);
      InsertKeepsTies(s[0], SortNewestFirst(s[1..]), t);
    }
  }

  lemma SameElements(a: seq<Post>, b: seq<Post>)
    requires multiset(a) == multiset(b)
    ensures forall i :: 0 <= i < |a| ==> a[i] in b
  {
    forall i | 0 <= i < |a| ensures a[i] in b {
      assert a[i] in multiset(a);
    }
  }

  /** `getPostsByUser`: exactly that user's posts, newest first. */
  function PostsOf(posts: seq<Post>, userId: int): (r: seq<Post>)
    ensures NewestFirst(r)
    ensures forall x :: multiset(r)[x] == if x.userId == userId then multiset(posts)[x] else 0
    ensures forall i :: 0 <= i < |r| ==> r[i] in posts && r[i].userId == userId
    ensures forall i :: 0 <= i < |posts| && posts[i].userId == userId ==> posts[i] in r
  {
    var mine := Filter(posts, ByUser(userId));
    FilterMembers(posts, ByUser(userId));
    FilterCounts(posts, ByUser(userId));
    var r := SortNewestFirst(mine);
    SameElements(r, mine);
    SameElements(mine, r);
    r
  }

  /** The record `createPost` builds: `{ Id: highestId + 1, ...draft, likes: 0, comments: [] }`. */
  function NewPost(draft: PostDraft, highestId: int, now: int): (p: Post)
    ensures draft.Id.None? ==> p.Id == highestId + 1
    ensures draft.Id.Some? ==> p.Id == draft.Id.value
    ensures p.userId == draft.userId && p.imageUrl == draft.imageUrl
    ensures p.caption == Some(draft.caption) && p.filter == Some(draft.filter)
    ensures p.likes == 0 && p.comments == [] && p.timestamp == now
  {
    Post(Override(draft.Id, highestId + 1), draft.userId, draft.imageUrl,
         Some(draft.caption), Some(draft.filter), 0, [], now)
  }

  /** `{ ...p, ...patch }`: every supplied key overwrites, the id included. */
  function ApplyPatch(p: Post, patch: PostPatch): (r: Post)
    ensures patch.Id.Some? ==> r.Id == patch.Id.value
    ensures patch.Id.None? ==> r.Id == p.Id
    ensures patch.userId.Some? ==> r.userId == patch.userId.value
    ensures patch.userId.None? ==> r.userId == p.userId
    ensures patch.imageUrl.Some? ==> r.imageUrl == patch.imageUrl.value
    ensures patch.imageUrl.None? ==> r.imageUrl == p.imageUrl
    ensures patch.caption.Some? ==> r.caption == patch.caption
    ensures patch.caption.None? ==> r.caption == p.caption
    ensures patch.filter.Some? ==> r.filter == patch.filter
    ensures patch.filter.None? ==> r.filter == p.filter
    ensures patch.likes.Some? ==> r.likes == patch.likes.value
    ensures patch.likes.None? ==> r.likes == p.likes
    ensures patch.comments.Some? ==> r.comments == patch.comments.value
    ensures patch.comments.None? ==> r.comments == p.comments
    ensures patch.timestamp.Some? ==> r.timestamp == patch.timestamp.value
    ensures patch.timestamp.None? ==> r.timestamp == p.timestamp
  {
    Post(Override(patch.Id, p.Id),
         Override(patch.userId, p.userId),
         Override(patch.imageUrl, p.imageUrl),
         if patch.caption.Some? then patch.caption else p.caption,
         if patch.filter.Some? then patch.filter else p.filter,
         Override(patch.likes, p.likes),
         Override(patch.comments, p.comments),
         Override(patch.timestamp, p.timestamp))
  }

  /** An empty patch changes nothing, and applying the same patch twice is applying
      it once. */
  lemma ApplyPatchLaws(p: Post, patch: PostPatch)
    ensures patch == PostPatch(None, None, None, None, None, None, None, None) ==> ApplyPatch(p, patch) == p
    ensures ApplyPatch(ApplyPatch(p, patch), patch) == ApplyPatch(p, patch)
  {
  }

  function Like(p: Post): (r: Post)
    ensures r.likes == p.likes + 1 && r == p.(likes := r.likes)
  {
    p.(likes := p.likes + 1)
  }

  /** `Math.max(0, likes - 1)`. */
  function Unlike(p: Post): (r: Post)
    ensures r.likes >= 0
    ensures p.likes >= 1 ==> r.likes == p.likes - 1
    ensures p.likes < 1 ==> r.likes == 0
    ensures r == p.(likes := r.likes)
  {
    p.(likes := if p.likes - 1 > 0 then p.likes - 1 else 0)
  }

  /** Unliking undoes a like of a post whose count is not negative. */
  lemma UnlikeUndoesLike(p: Post)
    requires p.likes >= 0
    ensures Unlike(Like(p)) == p
  {
  }

  class PostStore {
    var posts: seq<Post>

    constructor (initial: seq<Post>)
      ensures posts == initial
    {
      posts := initial;
    }

    /** `getPosts`: a sorted copy; the store itself keeps its order. */
    method GetPosts() returns (r: seq<Post>)
      ensures NewestFirst(r) && multiset(r) == multiset(posts)
      ensures r == SortNewestFirst(posts)
    {
      r := SortNewestFirst(posts);
    }

    /** `getPostById`: the first post with that id, or null. */
    method GetPostById(id: int) returns (r: Option<Post>)
      ensures r.None? <==> forall j :: 0 <= j < |posts| ==> posts[j].Id != id
      ensures r.Some? ==> r.value.Id == id && r.value in posts
      ensures r == Find(posts, HasId(id))
    {
      r := Find(posts, HasId(id));
    }

    method GetPostsByUser(userId: int) returns (r: seq<Post>)
      ensures r == PostsOf(posts, userId)
    {
      r := PostsOf(posts, userId);
    }

    /** `createPost`: the new post goes to the front with the next id. */
    method CreatePost(draft: PostDraft, now: int) returns (r: Post)
      modifies this
      ensures r == NewPost(draft, MaxWithZero(Ids(old(posts))), now)
      ensures draft.Id.None? ==> forall i :: 0 <= i < |old(posts)| ==> old(posts)[i].Id < r.Id
      ensures posts == [r] + old(posts)
    {
      var highestId := MaxWithZero(Ids(posts));
      r := NewPost(draft, highestId, now);
      posts := [r] + posts;
    }

    /** `updatePost`: merge the patch into the first post with that id. */
    method UpdatePost(id: int, patch: PostPatch) returns (r: Result<Post>)
      modifies this
      ensures FindIndex(old(posts), HasId(id)).None? ==>
                r == Err("Post not found") && posts == old(posts)
      ensures FindIndex(old(posts), HasId(id)).Some? ==>
                var k := FindIndex(old(posts), HasId(id)).value;
                r == Ok(ApplyPatch(old(posts)[k], patch)) && posts == old(posts)[k := r.value]
    {
      match FindIndex(posts, HasId(id))
      case None =>
        r := Err("Post not found");
      case Some(k) =>
        var updated := ApplyPatch(posts[k], patch);
        posts := posts[k := updated];
        r := Ok(updated);
    }

    /** `deletePost`: splice out the first post with that id. */
    method DeletePost(id: int) returns (r: Result<bool>)
      modifies this
      ensures FindIndex(old(posts), HasId(id)).None? ==>
                r == Err("Post not found") && posts == old(posts)
      ensures FindIndex(old(posts), HasId(id)).Some? ==>
                var k := FindIndex(old(posts), HasId(id)).value;
                r == Ok(true) && posts == old(posts)[..k] + old(posts)[k + 1..]
    {
      match FindIndex(posts, HasId(id))
      case None =>
        r := Err("Post not found");
      case Some(k) =>
        posts := posts[..k] + posts[k + 1..];
        r := Ok(true);
    }

    /** `likePost`: one more like on the first post with that id. */
    method LikePost(id: int) returns (r: Result<Post>)
      modifies this
      ensures FindIndex(old(posts), HasId(id)).None? ==>
                r == Err("Post not found") && posts == old(posts)
      ensures FindIndex(old(posts), HasId(id)).Some? ==>
                var k := FindIndex(old(posts), HasId(id)).value;
                r == Ok(Like(old(posts)[k])) && posts == old(posts)[k := r.value]
    {
      match FindIndex(posts, HasId(id))
      case None =>
        r := Err("Post not found");
      case Some(k) =>
        var liked := Like(posts[k]);
        posts := posts[k := liked];
        r := Ok(liked);
    }

    /** `unlikePost`: one like fewer on the first post with that id, never below 0. */
    method UnlikePost(id: int) returns (r: Result<Post>)
      modifies this
      ensures FindIndex(old(posts), HasId(id)).None? ==>
                r == Err("Post not found") && posts == old(posts)
      ensures FindIndex(old(posts), HasId(id)).Some? ==>
                var k := FindIndex(old(posts), HasId(id)).value;
                r == Ok(Unlike(old(posts)[k])) && posts == old(posts)[k := r.value]
    {
      match FindIndex(posts, HasId(id))
      case None =>
        r := Err("Post not found");
      case Some(k) =>
        var unliked := Unlike(posts[k]);
        posts := posts[k := unliked];
        r := Ok(unliked);
    }
  }
}
