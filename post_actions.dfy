/** The like / save / share buttons under a post, with their local `liked`, `likes`
    and `saved` state and the optional callbacks they notify. */
module PostActionsComponent {

  /** The `(liked, likes)` pair the like button updates. */
  datatype LikeState = LikeState(liked: bool, likes: int)

  /** A callback the buttons invoke, with its arguments. */
  datatype Call = OnLike(postId: int, liked: bool) | OnSave(postId: int, saved: bool) | OnShare(postId: int)

  /** `handleLike`: flip `liked`; the count goes up when the post becomes liked and down
      otherwise, with no floor at 0. */
  function ToggleLike(s: LikeState): (r: LikeState)
    ensures r.liked == !s.liked
    ensures r.liked ==> r.likes == s.likes + 1
    ensures !r.liked ==> r.likes == s.likes - 1
  {
    var newLiked := !s.liked;
    LikeState(newLiked, if newLiked then s.likes + 1 else s.likes - 1)
  }

  /** The count differs from the initial count by exactly the change of `liked`. */
  predicate Balanced(s: LikeState, initialLikes: int, initialLiked: bool)
  {
    s.likes == initialLikes + (if s.liked then 1 else 0) - (if initialLiked then 1 else 0)
  }

  /** Toggling keeps the count balanced. */
  lemma ToggleLikeKeepsBalance(s: LikeState, initialLikes: int, initialLiked: bool)
    requires Balanced(s, initialLikes, initialLiked)
    ensures Balanced(ToggleLike(s), initialLikes, initialLiked)
  {
  }

  function ToggleTimes(s: LikeState, n: nat): LikeState
  {
    if n == 0 then s else ToggleLike(ToggleTimes(s, n - 1))
  }

  /** Two likes in a row restore the pair; after `n` likes only the parity of `n` matters. */
  lemma {:induction false} ToggleTimesParity(s: LikeState, n: nat)
    ensures ToggleTimes(s, n) == if n % 2 == 0 then s else ToggleLike(s)
  {
    if n > 0 {
      ToggleTimesParity(s, n - 1);
      assert ToggleLike(ToggleLike(s)) == s;
    }
  }

  /** `handleSave`'s toast text. */
  function SaveToast(saved: bool): string
  {
    if saved then "Post saved!" else "Post removed from saved"
  }

  class PostActions {
    const postId: int
    const initialLikes: int
    const initialLiked: bool
    /** Whether the parent passed `onLike`, `onSave`, `onShare` (they are optional). */
    const hasOnLike: bool
    const hasOnSave: bool
    const hasOnShare: bool
    var liked: bool
    var likes: int
    var saved: bool
    var calls: seq<Call>
    var toasts: seq<string>

    ghost predicate Valid()
      reads this
    {
      Balanced(LikeState(liked, likes), initialLikes, initialLiked)
    }

    constructor (postId: int, initialLikes: int, initialLiked: bool, initialSaved: bool,
                 hasOnLike: bool, hasOnSave: bool, hasOnShare: bool)
      ensures this.postId == postId && this.initialLikes == initialLikes && this.initialLiked == initialLiked
      ensures this.hasOnLike == hasOnLike && this.hasOnSave == hasOnSave && this.hasOnShare == hasOnShare
      ensures liked == initialLiked && likes == initialLikes && saved == initialSaved
      ensures calls == [] && toasts == []
      ensures Valid()
    {
      this.postId := postId;
      this.initialLikes := initialLikes;
      this.initialLiked := initialLiked;
      this.hasOnLike := hasOnLike;
      this.hasOnSave := hasOnSave;
      this.hasOnShare := hasOnShare;
      liked := initialLiked;
      likes := initialLikes;
      saved := initialSaved;
      calls := [];
      toasts := [];
    }

    /** `handleLike`: toggle and report `(postId, newLiked)` to `onLike` if present. */
    method HandleLike()
      requires Valid()
      modifies this
      ensures Valid()
      ensures LikeState(liked, likes) == ToggleLike(old(LikeState(liked, likes)))
      ensures saved == old(saved) && toasts == old(toasts)
      ensures calls == old(calls) + (if hasOnLike then [OnLike(postId, liked)] else [])
    {
      var next := ToggleLike(LikeState(liked, likes));
      ToggleLikeKeepsBalance(LikeState(liked, likes), initialLikes, initialLiked);
      liked, likes := next.liked, next.likes;
      if hasOnLike {
        calls := calls + [OnLike(postId, liked)];
      }
    }

    /** `handleSave`: flip `saved`, report it to `onSave` if present, and toast. */
    method HandleSave()
      requires Valid()
      modifies this
      ensures Valid()
      ensures saved == !old(saved)
      ensures liked == old(liked) && likes == old(likes)
      ensures calls == old(calls) + (if hasOnSave then [OnSave(postId, saved)] else [])
      ensures toasts == old(toasts) + [SaveToast(saved)]
    {
      saved := !saved;
      if hasOnSave {
        calls := calls + [OnSave(postId, saved)];
      }
      toasts := toasts + [SaveToast(saved)];
    }

    /** `handleShare`: report to `onShare` if present, and toast. */
    method HandleShare()
      requires Valid()
      modifies this
      ensures Valid()
      ensures liked == old(liked) && likes == old(likes) && saved == old(saved)
      ensures calls == old(calls) + (if hasOnShare then [OnShare(postId)] else [])
      ensures toasts == old(toasts) + ["Link copied to clipboard!"]
    {
      if hasOnShare {
        calls := calls + [OnShare(postId)];
      }
      toasts := toasts + ["Link copied to clipboard!"];
    }
  }
}
