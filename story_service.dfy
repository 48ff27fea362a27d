/** The in-memory story repository: a module-level array of story records and a
    counter `lastId`, updated in place by create, update, delete and view. */
module StoryService {
  import opened Wrappers
  import opened SeqUtil
  import Text

  /** Twenty-four hours in milliseconds: the lifetime of a story. */
  const DayMs: int := 24 * 60 * 60 * 1000

  /** A story record; `createdAt` and `expiresAt` are clock readings in milliseconds. */
  datatype Story = Story(
    Id: int,
    userId: int,
    mediaUrl: string,
    mediaType: string,
    caption: string,
    createdAt: int,
    expiresAt: int,
    viewed: bool,
    viewCount: int,
    viewers: seq<int>)

  /** The argument of `createStory`; `mediaType` and `caption` may be missing. */
  datatype StoryDraft = StoryDraft(
    userId: int,
    mediaUrl: string,
    mediaType: Option<string>,
    caption: Option<string>)

  /** The argument of `updateStory`: the keys present in the object being spread. */
  datatype StoryPatch = StoryPatch(
    Id: Option<int>,
    userId: Option<int>,
    mediaUrl: Option<string>,
    mediaType: Option<string>,
    caption: Option<string>,
    createdAt: Option<int>,
    expiresAt: Option<int>,
    viewed: Option<bool>,
    viewCount: Option<int>,
    viewers: Option<seq<int>>)

  function HasId(id: int): Story -> bool
  {
    (s: Story) => s.Id == id
  }

  function OwnedBy(userId: int): Story -> bool
  {
    (s: Story) => s.userId == userId
  }

  function CreatedAfter(cutoff: int): Story -> bool
  {
    (s: Story) => s.createdAt > cutoff
  }

  function Ids(stories: seq<Story>): (ids: seq<int>)
    ensures |ids| == |stories|
    ensures forall i :: 0 <= i < |stories| ==> ids[i] == stories[i].Id
  {
    seq(|stories|, i requires 0 <= i < |stories| => stories[i].Id)
  }

  /** A story is active when it was created strictly less than 24 hours before `now`. */
  predicate IsActive(s: Story, now: int)
  {
    now - s.createdAt < DayMs
  }

  /** `getActiveStories`: the stories created after `now - 24h`, in store order. */
  function ActiveStories(stories: seq<Story>, now: int): (r: seq<Story>)
    ensures forall i :: 0 <= i < |r| ==> r[i] in stories && IsActive(r[i], now)
    ensures forall i :: 0 <= i < |stories| && IsActive(stories[i], now) ==> stories[i] in r
    ensures forall x :: multiset(r)[x] == if IsActive(x, now) then multiset(stories)[x] else 0
    ensures IsSubsequence(r, stories)
  {
    FilterMembers(stories, CreatedAfter(now - DayMs));
    FilterCounts(stories, CreatedAfter(now - DayMs));
    FilterIsSubsequence(stories, CreatedAfter(now - DayMs));
    Filter(stories, CreatedAfter(now - DayMs))
  }

  /** `getStoriesByUserId`: exactly the stories of `userId`, in store order. */
  function StoriesOf(stories: seq<Story>, userId: int): (r: seq<Story>)
    ensures forall i :: 0 <= i < |r| ==> r[i] in stories && r[i].userId == userId
    ensures forall i :: 0 <= i < |stories| && stories[i].userId == userId ==> stories[i] in r
    ensures forall x :: multiset(r)[x] == if x.userId == userId then multiset(stories)[x] else 0
    ensures IsSubsequence(r, stories)
  {
    FilterMembers(stories, OwnedBy(userId));
    FilterCounts(stories, OwnedBy(userId));
    FilterIsSubsequence(stories, OwnedBy(userId));
    Filter(stories, OwnedBy(userId))
  }

  /** The record `createStory` builds from `draft` with id `id` at clock `now`. */
  function NewStory(draft: StoryDraft, id: int, now: int): (s: Story)
    ensures s.Id == id && s.userId == draft.userId && s.mediaUrl == draft.mediaUrl
    ensures s.mediaType == (if draft.mediaType.Some? && draft.mediaType.value != "" then draft.mediaType.value else "image")
    ensures s.caption == (if draft.caption.Some? then draft.caption.value else "")
    ensures s.createdAt == now && s.expiresAt == now + DayMs
    ensures !s.viewed && s.viewCount == 0 && s.viewers == []
    ensures IsActive(s, now)
  {
    Story(id, draft.userId, draft.mediaUrl, Text.OrElse(draft.mediaType, "image"),
          Text.OrElse(draft.caption, ""), now, now + DayMs, false, 0, [])
  }

  /** `{ ...s, ...patch, Id: id }`: the supplied fields overwrite, the id never changes. */
  function ApplyPatch(s: Story, patch: StoryPatch, id: int): (r: Story)
    ensures r.Id == id
    ensures patch.userId.Some? ==> r.userId == patch.userId.value
    ensures patch.userId.None? ==> r.userId == s.userId
    ensures patch.mediaUrl.Some? ==> r.mediaUrl == patch.mediaUrl.value
    ensures patch.mediaUrl.None? ==> r.mediaUrl == s.mediaUrl
    ensures patch.mediaType.Some? ==> r.mediaType == patch.mediaType.value
    ensures patch.mediaType.None? ==> r.mediaType == s.mediaType
    ensures patch.caption.Some? ==> r.caption == patch.caption.value
    ensures patch.caption.None? ==> r.caption == s.caption
    ensures patch.createdAt.Some? ==> r.createdAt == patch.createdAt.value
    ensures patch.createdAt.None? ==> r.createdAt == s.createdAt
    ensures patch.expiresAt.Some? ==> r.expiresAt == patch.expiresAt.value
    ensures patch.expiresAt.None? ==> r.expiresAt == s.expiresAt
    ensures patch.viewed.Some? ==> r.viewed == patch.viewed.value
    ensures patch.viewed.None? ==> r.viewed == s.viewed
    ensures patch.viewCount.Some? ==> r.viewCount == patch.viewCount.value
    ensures patch.viewCount.None? ==> r.viewCount == s.viewCount
    ensures patch.viewers.Some? ==> r.viewers == patch.viewers.value
    ensures patch.viewers.None? ==> r.viewers == s.viewers
  {
    Story(id,
          Override(patch.userId, s.userId),
          Override(patch.mediaUrl, s.mediaUrl),
          Override(patch.mediaType, s.mediaType),
          Override(patch.caption, s.caption),
          Override(patch.createdAt, s.createdAt),
          Override(patch.expiresAt, s.expiresAt),
          Override(patch.viewed, s.viewed),
          Override(patch.viewCount, s.viewCount),
          Override(patch.viewers, s.viewers))
  }

  /** A patch carrying no key other than `Id` changes nothing, and applying the same
      patch twice is applying it once. */
  lemma ApplyPatchLaws(s: Story, patch: StoryPatch)
    ensures patch == StoryPatch(patch.Id, None, None, None, None, None, None, None, None, None)
            ==> ApplyPatch(s, patch, s.Id) == s
    ensures ApplyPatch(ApplyPatch(s, patch, s.Id), patch, s.Id) == ApplyPatch(s, patch, s.Id)
  {
  }

  /** The `markStoryAsViewed` step on one record: append the viewer unless present. */
  function AddViewer(s: Story, viewerId: int): (r: Story)
    ensures viewerId in r.viewers
    ensures viewerId in s.viewers ==> r == s
    ensures viewerId !in s.viewers ==> r == s.(viewers := s.viewers + [viewerId], viewCount := |s.viewers| + 1)
  {
    if viewerId in s.viewers then s
    else s.(viewers := s.viewers + [viewerId], viewCount := |s.viewers| + 1)
  }

  predicate NoDuplicates(xs: seq<int>)
  {
    forall i, j :: 0 <= i < j < |xs| ==> xs[i] != xs[j]
  }

  /** The view count agrees with the viewer list, which holds no viewer twice. */
  predicate ViewsConsistent(s: Story)
  {
    s.viewCount == |s.viewers| && NoDuplicates(s.viewers)
  }

  /** Viewing twice is viewing once, and a view keeps the count and the list in step. */
  lemma AddViewerIdempotent(s: Story, viewerId: int)
    ensures AddViewer(AddViewer(s, viewerId), viewerId) == AddViewer(s, viewerId)
    ensures ViewsConsistent(s) ==> ViewsConsistent(AddViewer(s, viewerId))
    ensures viewerId !in s.viewers ==> AddViewer(s, viewerId).viewCount == |s.viewers| + 1
  {
  }

  /** Repeating `markStoryAsViewed` with the same viewer `n >= 1` times adds the viewer once. */
  lemma {:induction false} AddViewerRepeated(s: Story, viewerId: int, n: nat)
    requires n >= 1
    ensures Repeat(s, viewerId, n) == AddViewer(s, viewerId)
  {
    if n > 1 {
      AddViewerRepeated(s, viewerId, n - 1);
    }
  }

  function Repeat(s: Story, viewerId: int, n: nat): Story
  {
    if n == 0 then s else AddViewer(Repeat(s, viewerId, n - 1), viewerId)
  }

  class StoryStore {
    var stories: seq<Story>
    var lastId: int

    /** Every stored id is at most `lastId`, so ids handed out later are new. */
    ghost predicate Valid()
      reads this
    {
      lastId >= 0 && forall i :: 0 <= i < |stories| ==> stories[i].Id <= lastId
    }

    /** Module load: the store holds the mock data and `lastId = Math.max(...ids, 0)`. */
    constructor (initial: seq<Story>)
      ensures stories == initial && lastId == MaxWithZero(Ids(initial))
      ensures Valid()
    {
      stories := initial;
      lastId := MaxWithZero(Ids(initial));
    }

    /** `getStories`: a copy of the store, same elements, same order. */
    method GetStories() returns (r: seq<Story>)
      ensures r == stories
    {
      r := stories;
    }

    /** `getStoryById`: the first story with that id, or null. */
    method GetStoryById(id: int) returns (r: Option<Story>)
      ensures r.None? <==> forall j :: 0 <= j < |stories| ==> stories[j].Id != id
      ensures r.Some? ==> r.value.Id == id && r.value in stories
      ensures r == Find(stories, HasId(id))
    {
      r := Find(stories, HasId(id));
    }

    method GetStoriesByUserId(userId: int) returns (r: seq<Story>)
      ensures r == StoriesOf(stories, userId)
    {
      r := StoriesOf(stories, userId);
    }

    method GetActiveStories(now: int) returns (r: seq<Story>)
      ensures r == ActiveStories(stories, now)
    {
      r := ActiveStories(stories, now);
    }

    /** `createStory`: `++lastId` becomes the id of a story appended at the end. */
    method CreateStory(draft: StoryDraft, now: int) returns (r: Story)
      requires Valid()
      modifies this
      ensures Valid()
      ensures lastId == old(lastId) + 1
      ensures r == NewStory(draft, lastId, now)
      ensures stories == old(stories) + [r]
      ensures forall i :: 0 <= i < |old(stories)| ==> old(stories)[i].Id < r.Id
    {
      lastId := lastId + 1;
      r := NewStory(draft, lastId, now);
      stories := stories + [r];
    }

    /** `updateStory`: merge the patch into the first story with that id, keeping the id. */
    method UpdateStory(id: int, patch: StoryPatch) returns (r: Result<Story>)
      requires Valid()
      modifies this
      ensures Valid() && lastId == old(lastId)
      ensures FindIndex(old(stories), HasId(id)).None? ==>
                r == Err("Story not found") && stories == old(stories)
      ensures FindIndex(old(stories), HasId(id)).Some? ==>
                var k := FindIndex(old(stories), HasId(id)).value;
                r == Ok(ApplyPatch(old(stories)[k], patch, id)) &&
                stories == old(stories)[k := r.value] &&
                r.value.Id == old(stories)[k].Id
    {
      match FindIndex(stories, HasId(id))
      case None =>
        r := Err("Story not found");
      case Some(k) =>
        var updated := ApplyPatch(stories[k], patch, id);
        stories := stories[k := updated];
        r := Ok(updated);
    }

    /** `deleteStory`: splice out the first story with that id and return it. */
    method DeleteStory(id: int) returns (r: Result<Story>)
      requires Valid()
      modifies this
      ensures Valid() && lastId == old(lastId)
      ensures FindIndex(old(stories), HasId(id)).None? ==>
                r == Err("Story not found") && stories == old(stories)
      ensures FindIndex(old(stories), HasId(id)).Some? ==>
                var k := FindIndex(old(stories), HasId(id)).value;
                r == Ok(old(stories)[k]) &&
                stories == old(stories)[..k] + old(stories)[k + 1..]
    {
      match FindIndex(stories, HasId(id))
      case None =>
        r := Err("Story not found");
      case Some(k) =>
        r := Ok(stories[k]);
        stories := stories[..k] + stories[k + 1..];
        assert forall i :: 0 <= i < |stories| ==> stories[i] in old(stories);
    }

    /** `markStoryAsViewed`: record the viewer on the first story with that id. */
    method MarkStoryAsViewed(id: int, viewerId: int) returns (r: Result<Story>)
      requires Valid()
      modifies this
      ensures Valid() && lastId == old(lastId)
      ensures FindIndex(old(stories), HasId(id)).None? ==>
                r == Err("Story not found") && stories == old(stories)
      ensures FindIndex(old(stories), HasId(id)).Some? ==>
                var k := FindIndex(old(stories), HasId(id)).value;
                r == Ok(AddViewer(old(stories)[k], viewerId)) &&
                stories == old(stories)[k := r.value]
    {
      match FindIndex(stories, HasId(id))
      case None =>
        r := Err("Story not found");
      case Some(k) =>
        var viewed := AddViewer(stories[k], viewerId);
        stories := stories[k := viewed];
        r := Ok(viewed);
    }

    /** `getStoryViewers`: the viewer list of the first story with that id. */
    method GetStoryViewers(id: int) returns (r: Result<seq<int>>)
      ensures Find(stories, HasId(id)).None? ==> r == Err("Story not found")
      ensures Find(stories, HasId(id)).Some? ==> r == Ok(Find(stories, HasId(id)).value.viewers)
    {
      match Find(stories, HasId(id))
      case None =>
        r := Err("Story not found");
      case Some(s) =>
        r := Ok(s.viewers);
    }
  }

  /** Ids are never reused: a story created after a delete gets an id different from
      every id the store ever held, the deleted one included. */
  method DeleteThenCreate(store: StoryStore, id: int, draft: StoryDraft, now: int)
    returns (deleted: Result<Story>, created: Story)
    requires store.Valid()
    modifies store
    ensures store.Valid()
    ensures deleted.Ok? ==> created.Id != deleted.value.Id
    ensures forall i :: 0 <= i < |old(store.stories)| ==> created.Id != old(store.stories)[i].Id
  {
    deleted := store.DeleteStory(id);
    created := store.CreateStory(draft, now);
  }
}
