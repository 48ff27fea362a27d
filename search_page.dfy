/** The search page: loaded posts and users, a search term, and the two lists the
    filtering effect derives from them. */
module SearchPageComponent {
  import opened Wrappers
  import opened SeqUtil
  import Text
  import PostService
  import UserService

  /** The chips offered under "Trending Hashtags". */
  const TrendingHashtags: seq<string> := ["#photography", "#art", "#nature", "#lifestyle", "#travel",
                                          "#food", "#fashion", "#sunset", "#portrait", "#street"]

  /** `haystack.toLowerCase().includes(term.toLowerCase())`. */
  predicate ContainsIgnoringCase(haystack: string, term: string)
  {
    Text.Contains(Text.Lower(haystack), Text.Lower(term))
  }

  /** `post.caption?.toLowerCase().includes(...)`: a post without caption never matches. */
  predicate PostMatches(p: PostService.Post, term: string)
  {
    p.caption.Some? && ContainsIgnoringCase(p.caption.value, term)
  }

  /** The username, or a display name when there is one, contains the term. */
  predicate UserMatches(u: UserService.User, term: string)
  {
    ContainsIgnoringCase(u.username, term) ||
    (u.displayName.Some? && ContainsIgnoringCase(u.displayName.value, term))
  }

  function PostFilter(term: string): PostService.Post -> bool
  {
    (p: PostService.Post) => PostMatches(p, term)
  }

  function UserFilter(term: string): UserService.User -> bool
  {
    (u: UserService.User) => UserMatches(u, term)
  }

  /** The filtered posts: none for an empty term, else exactly the matching posts in
      their loaded order. */
  function FilterPosts(posts: seq<PostService.Post>, term: string): (r: seq<PostService.Post>)
    ensures term == "" ==> r == []
    ensures forall i :: 0 <= i < |r| ==> r[i] in posts && PostMatches(r[i], term)
    ensures term != "" ==> forall i :: 0 <= i < |posts| && PostMatches(posts[i], term) ==> posts[i] in r
    ensures term != "" ==> forall x :: multiset(r)[x] == if PostMatches(x, term) then multiset(posts)[x] else 0
    ensures IsSubsequence(r, posts)
  {
    if term == "" then []
    else
      FilterMembers(posts, PostFilter(term));
      FilterCounts(posts, PostFilter(term));
      FilterIsSubsequence(posts, PostFilter(term));
      Filter(posts, PostFilter(term))
  }

  /** The filtered users: none for an empty term, else exactly the matching users in
      their loaded order. */
  function FilterUsers(users: seq<UserService.User>, term: string): (r: seq<UserService.User>)
    ensures term == "" ==> r == []
    ensures forall i :: 0 <= i < |r| ==> r[i] in users && UserMatches(r[i], term)
    ensures term != "" ==> forall i :: 0 <= i < |users| && UserMatches(users[i], term) ==> users[i] in r
    ensures term != "" ==> forall x :: multiset(r)[x] == if UserMatches(x, term) then multiset(users)[x] else 0
    ensures IsSubsequence(r, users)
  {
    if term == "" then []
    else
      FilterMembers(users, UserFilter(term));
      FilterCounts(users, UserFilter(term));
      FilterIsSubsequence(users, UserFilter(term));
      Filter(users, UserFilter(term))
  }

  /** Matching ignores ASCII case: an upper-case spelling of the term finds the same posts. */
  lemma {:induction false} LowerIdempotent(s: string)
    ensures Text.Lower(Text.Lower(s)) == Text.Lower(s)
  {
    var l := Text.Lower(s);
    forall i | 0 <= i < |s| ensures Text.Lower(l)[i] == l[i] {
      assert Text.LowerChar(Text.LowerChar(s[i])) == Text.LowerChar(s[i]);
    }
  }

  lemma PostMatchIgnoresCase(p: PostService.Post, term: string)
    ensures PostMatches(p, Text.Lower(term)) <==> PostMatches(p, term)
  {
    LowerIdempotent(term);
  }

  class SearchPage {
    var posts: seq<PostService.Post>
    var users: seq<UserService.User>
    var searchTerm: string
    var filteredPosts: seq<PostService.Post>
    var filteredUsers: seq<UserService.User>

    /** After every update the filtering effect has run: both lists match the term. */
    ghost predicate Valid()
      reads this
    {
      filteredPosts == FilterPosts(posts, searchTerm) && filteredUsers == FilterUsers(users, searchTerm)
    }

    constructor ()
      ensures posts == [] && users == [] && searchTerm == ""
      ensures filteredPosts == [] && filteredUsers == []
      ensures Valid()
    {
      posts, users, searchTerm := [], [], "";
      filteredPosts, filteredUsers := [], [];
    }

    /** The filtering effect (re-run whenever the term or the loaded lists change). */
    method Refilter()
      modifies this`filteredPosts, this`filteredUsers
      ensures Valid()
    {
      if searchTerm != "" {
        filteredPosts := Filter(posts, PostFilter(searchTerm));
        filteredUsers := Filter(users, UserFilter(searchTerm));
      } else {
        filteredPosts := [];
        filteredUsers := [];
      }
    }

    /** `loadSearchData` succeeded with these posts and users. */
    method Loaded(loadedPosts: seq<PostService.Post>, loadedUsers: seq<UserService.User>)
      modifies this
      ensures posts == loadedPosts && users == loadedUsers && searchTerm == old(searchTerm)
      ensures Valid()
    {
      posts, users := loadedPosts, loadedUsers;
      Refilter();
    }

    /** `handleSearch`: store the trimmed term. */
    method HandleSearch(term: string)
      modifies this
      ensures searchTerm == Text.Trim(term)
      ensures posts == old(posts) && users == old(users)
      ensures Valid()
    {
      searchTerm := Text.Trim(term);
      Refilter();
    }

    /** A trending-hashtag chip: store its tag as it is. */
    method SelectHashtag(tag: string)
      requires tag in TrendingHashtags
      modifies this
      ensures searchTerm == tag
      ensures posts == old(posts) && users == old(users)
      ensures Valid()
    {
      searchTerm := tag;
      Refilter();
    }
  }
}
