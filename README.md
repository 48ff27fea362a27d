# Social feed front end: repositories, story viewer and page logic in Dafny

This project models the behavioural core of a small photo-sharing front end. The
application keeps posts, stories and users in module-level arrays that its "API"
functions read and change in place. On top of them it has a story viewer (a
slideshow with a progress bar, swipe and keyboard navigation) and a handful of
pages and widgets with their own small state machines.

The model, module by module:

- `StoryService` (story_service.dfy): the story repository as a class `StoryStore`
  with a `stories` sequence and the `lastId` counter. Creation bumps the counter and
  appends. Update and view rewrite the first story with the id. Delete splices it
  out. An unknown id gives `Err("Story not found")` and leaves the store unchanged.
  The queries are functions over the sequence.
- `PostService` (post_service.dfy): the post repository as `PostStore`. Creation
  puts the new post at the front with id max+1, unless the caller supplies an id.
  Like and unlike change the count in place, and unlike never goes below 0.
  `getPosts` and `getPostsByUser` sort newest first with a stable sort.
- `UserService` (user_service.dfy): the user repository as `UserStore`, with
  lookups and a merging `updateUser`.
- `StoryViewerComponent` (story_viewer.dfy): the viewer as a class over the React
  state cells. These are the active index, the pause flag, the progress (integer
  milliseconds out of 5000), the touch-start slot and the animation-frame handle.
  The class also keeps the delayed `goToNext` calls still pending and a log of the
  callbacks fired (`onClose`, `markStoryAsViewed`).
- `PostActionsComponent`, `DoubleClickHook`, `CommentInputComponent`: the like and
  save toggles, the single/double-click discriminator, and the comment box.
- `SearchPageComponent`, `MyStoryPageComponent`, `CreatePageComponent`: the search
  filtering effect, the media checks of the story page, and the post-creation form.
- `Formatters` (formatters.js): the branch `formatNumber` takes, and the
  `#tag`/`@mention` highlighting. The highlighting is modelled as a split of the
  text into literal characters and matched tags.
- Shared helpers: `Wrappers` (Option, Result, the object-spread override), `SeqUtil`
  (`find`, `findIndex`, `filter`, `Math.max(...xs, 0)`) and `Text` (`trim` with the
  ECMAScript white-space set, `includes`, `startsWith`, ASCII lower-casing, `||` on
  strings).

Every call into the repositories is a synchronous method. The clock (`Date.now()`,
`new Date()`) is an integer parameter `now` in milliseconds. Timestamps are
integers.

Behaviours of the code worth noting:

- Resuming the story viewer after a pause restarts the bar at 0
  (`startProgressTimer` resets progress). It does not continue from where it stopped.
- `getActiveStories` returns the active stories in store order. It does not sort them.
- Every change of active index marks the story viewed by viewer 1. This happens
  whatever `userId` the viewer was opened with.
- The media `onLoad`/`onLoadedData` handlers only un-pause the viewer. Nothing in
  the code holds the timer until the media is ready.

## Model

| member | source | states |
|---|---|---|
| Wrappers.Override | src/services/api/storyService.js:65-69 | a key present in the spread patch wins, an absent one keeps the current value |
| SeqUtil.FindIndex | src/services/api/storyService.js:59 | `findIndex`: the index of the first element satisfying the predicate, none before it does; none when no element does |
| SeqUtil.Find | src/services/api/storyService.js:17 | `find`: nothing iff no element matches; otherwise an element of the list that matches, with no match before it |
| SeqUtil.Filter | src/services/api/storyService.js:23 | `filter`: never longer than the input; which elements it keeps, how often and in what order is stated by the three lemmas below |
| SeqUtil.FilterMembers | src/services/api/storyService.js:23 | every kept element is an input element that matches, and every matching input element is kept |
| SeqUtil.FilterCounts | src/services/api/storyService.js:23 | each matching element is kept exactly as many times as it occurs in the input, any other not at all |
| SeqUtil.FilterIsSubsequence | src/services/api/storyService.js:23 | filtering keeps the order of the elements it keeps |
| SeqUtil.FilterAppend | src/services/api/storyService.js:23 | filtering a concatenation is concatenating the filtered parts |
| SeqUtil.MaxWithZero | src/services/api/storyService.js:7 | `Math.max(...xs, 0)`: not negative, at least every element, and either 0 or one of the elements |
| Text.LeadingWhitespace | src/components/molecules/CommentInput.jsx:10 | the length of the white-space run at the front: every character before it is white space, the one at it is not |
| Text.TrailingWhitespace | src/components/molecules/CommentInput.jsx:10 | the length of the white-space run at the back: every character after the cut is white space, the one before it is not |
| Text.Trim | src/components/molecules/CommentInput.jsx:10 | `trim`: the result has no white space at either end; empty iff the input is all white space |
| Text.TrimIsSlice | src/components/molecules/CommentInput.jsx:10 | the trimmed text is a contiguous slice of the input with only white space before and after it |
| Text.TrimIdempotent | src/components/molecules/CommentInput.jsx:10-11 | trimming twice is trimming once |
| Text.Lower | src/components/pages/SearchPage.jsx:36 | `toLowerCase`, ASCII letters only: same length, each character lowered |
| Text.OrElse | src/services/api/storyService.js:43-44 | the logical or of a string and a fallback: a non-empty value wins, a missing or empty one gives the fallback |
| StoryService.ActiveStories | src/services/api/storyService.js:26-34 | exactly the stories created less than 24 h before `now`, each as many times as in the store, as a subsequence of the store |
| StoryService.StoriesOf | src/services/api/storyService.js:20-24 | exactly the stories of the user, each as many times as in the store, as a subsequence of the store |
| StoryService.NewStory | src/services/api/storyService.js:39-50 | the new record: given id, media type defaulting to `image` and caption to the empty string, created now, expiring 24 h later, not viewed, 0 views, no viewers, active |
| StoryService.ApplyPatch | src/services/api/storyService.js:65-69 | `{ ...story, ...updates, Id }`: the id is the one given; every other key present in the patch takes the patch's value, every absent key keeps the story's |
| StoryService.ApplyPatchLaws | src/services/api/storyService.js:65-69 | a patch with no key but `Id` changes nothing; applying a patch twice is applying it once |
| StoryService.AddViewer | src/services/api/storyService.js:97-100 | after a view the viewer is in the list; a known viewer changes nothing; a new one is appended and the count becomes the list length |
| StoryService.AddViewerIdempotent | src/services/api/storyService.js:97-100 | viewing twice equals viewing once, and a view keeps `viewCount` equal to the length of `viewers`, with no duplicate viewer |
| StoryService.AddViewerRepeated | src/services/api/storyService.js:87-103 | any number (at least one) of views by the same viewer equals a single view |
| StoryService.StoryStore.constructor | src/services/api/storyService.js:1-7 | the store holds the initial data and `lastId` is the largest id, or 0; every id is at most `lastId` |
| StoryService.StoryStore.GetStories | src/services/api/storyService.js:9-12 | a copy of the store: same stories, same order |
| StoryService.StoryStore.GetStoryById | src/services/api/storyService.js:14-18 | null iff no story has the id, else the first story with it |
| StoryService.StoryStore.GetStoriesByUserId | src/services/api/storyService.js:20-24 | the user's stories in store order (`StoriesOf`) |
| StoryService.StoryStore.GetActiveStories | src/services/api/storyService.js:26-34 | the stories of the last 24 h in store order (`ActiveStories`) |
| StoryService.StoryStore.CreateStory | src/services/api/storyService.js:36-54 | `lastId` goes up by one and is the new id, greater than every stored id; exactly the new record is appended, earlier records unchanged; the id invariant is kept |
| StoryService.StoryStore.UpdateStory | src/services/api/storyService.js:56-72 | unknown id: `Story not found` and nothing changes; otherwise only the first match is replaced by the merged record, at the same position and keeping its id even when the patch carries another |
| StoryService.StoryStore.DeleteStory | src/services/api/storyService.js:74-85 | unknown id: `Story not found` and nothing changes; otherwise the first match is returned and removed, the rest in order; `lastId` unchanged |
| StoryService.StoryStore.MarkStoryAsViewed | src/services/api/storyService.js:87-103 | unknown id: `Story not found` and nothing changes; otherwise the first match gets the viewer (`AddViewer`) and nothing else changes |
| StoryService.StoryStore.GetStoryViewers | src/services/api/storyService.js:105-115 | the viewer list of the first story with the id, or `Story not found` |
| StoryService.DeleteThenCreate | src/services/api/storyService.js:36-85 | ids are never reused: a story created after a delete gets an id unlike the deleted one and unlike every id the store held |
| PostService.Insert | src/services/api/postService.js:10 | inserting into a newest-first list keeps it newest first and adds exactly that post |
| PostService.SortNewestFirst | src/services/api/postService.js:10 | the sorted list is newest first and a permutation of the input |
| PostService.InsertPermutes | src/services/api/postService.js:10 | insertion adds exactly the new post: the multiset grows by one copy of it |
| PostService.InsertKeepsTies | src/services/api/postService.js:10 | insertion puts a post before the posts with its own timestamp |
| PostService.SortIsStable | src/services/api/postService.js:10 | the sort is stable: posts with equal timestamps keep their relative order |
| PostService.PostsOf | src/services/api/postService.js:18-22 | exactly the user's posts, each as many times as in the store, newest first |
| PostService.NewPost | src/services/api/postService.js:27-34 | id is highest+1 unless the draft supplies one; draft fields copied; 0 likes, no comments, stamped now |
| PostService.ApplyPatch | src/services/api/postService.js:47 | `{ ...post, ...updates }`: every key present in the patch, `Id` included, takes the patch's value; every absent key keeps the post's |
| PostService.ApplyPatchLaws | src/services/api/postService.js:47 | an empty patch changes nothing; applying a patch twice is applying it once |
| PostService.Like | src/services/api/postService.js:69 | exactly one more like, nothing else changes |
| PostService.Unlike | src/services/api/postService.js:80 | one like fewer, never below 0, nothing else changes |
| PostService.UnlikeUndoesLike | src/services/api/postService.js:62-82 | on a non-negative count, unlike undoes like |
| PostService.PostStore.constructor | src/services/api/postService.js:6 | the store starts as a copy of the initial data |
| PostService.PostStore.GetPosts | src/services/api/postService.js:8-11 | a newest-first permutation of the store; the store is not reordered |
| PostService.PostStore.GetPostById | src/services/api/postService.js:13-16 | null iff no post has the id, else the first post with it |
| PostService.PostStore.GetPostsByUser | src/services/api/postService.js:18-22 | the user's posts newest first (`PostsOf`) |
| PostService.PostStore.CreatePost | src/services/api/postService.js:24-38 | the new post (`NewPost` over max id or 0) is put at index 0 and the rest follow unchanged; without a supplied id its id exceeds every stored id |
| PostService.PostStore.UpdatePost | src/services/api/postService.js:40-49 | unknown id: `Post not found` and nothing changes; otherwise only the first match is replaced by the merged record |
| PostService.PostStore.DeletePost | src/services/api/postService.js:51-60 | unknown id: `Post not found` and nothing changes; otherwise exactly the first match is removed, the rest in order, and the result is true |
| PostService.PostStore.LikePost | src/services/api/postService.js:62-71 | unknown id: `Post not found` and nothing changes; otherwise only the first match gets one more like |
| PostService.PostStore.UnlikePost | src/services/api/postService.js:73-82 | unknown id: `Post not found` and nothing changes; otherwise only the first match loses a like, floored at 0 |
| UserService.ApplyPatch | src/services/api/userService.js:34 | `{ ...user, ...updates }`: every key present in the patch takes the patch's value; every absent key keeps the user's |
| UserService.ApplyPatchLaws | src/services/api/userService.js:34 | an empty patch changes nothing; applying a patch twice is applying it once |
| UserService.UserStore.constructor | src/services/api/userService.js:1 | the store holds the initial data |
| UserService.UserStore.GetUsers | src/services/api/userService.js:6-9 | a copy: same users, same order |
| UserService.UserStore.GetUserById | src/services/api/userService.js:11-14 | null iff no user has the id, else the first user with it |
| UserService.UserStore.GetUserByUsername | src/services/api/userService.js:16-19 | null iff no user has the name, else the first user with it |
| UserService.UserStore.GetCurrentUser | src/services/api/userService.js:21-25 | the first user; nothing on an empty store |
| UserService.UserStore.UpdateUser | src/services/api/userService.js:27-36 | unknown id: `User not found` and nothing changes; otherwise only the first match is replaced by the merge, length kept |
| StoryViewerComponent.KeyAction | src/components/organisms/StoryViewer.jsx:148-161 | ArrowLeft iff previous, ArrowRight or space iff next, Escape iff close; any other key does nothing |
| StoryViewerComponent.SwipeAction | src/components/organisms/StoryViewer.jsx:131-146 | next iff a truthy start lies more than 50 right of the end; previous iff the end lies more than 50 right of a truthy start; otherwise nothing |
| StoryViewerComponent.ViewEffects | src/components/organisms/StoryViewer.jsx:29-38 | an empty list closes; an index with a story marks it viewed by viewer 1; an index without one does nothing |
| StoryViewerComponent.StoryViewer.constructor | src/components/organisms/StoryViewer.jsx:10-48 | opening at an index runs the view effect and starts the timer at 0, not paused, no touch |
| StoryViewerComponent.StoryViewer.BarFill | src/components/organisms/StoryViewer.jsx:191-193 | a bar before the active one is full, the active one shows `progress`, a later one is empty; each between empty and full while progress is |
| StoryViewerComponent.StoryViewer.CurrentStory | src/components/organisms/StoryViewer.jsx:168-172 | a story iff the index is in range, and then the story at that index |
| StoryViewerComponent.StoryViewer.SetActiveIndex | src/components/organisms/StoryViewer.jsx:29-48 | `MovedTo`: setting the same index changes nothing; a new index logs its view effect and restarts the timer at 0, or while paused cancels the frame and keeps the bar; touch slot and pending advances untouched |
| StoryViewerComponent.StoryViewer.GoToNextFrom | src/components/organisms/StoryViewer.jsx:119-125 | from a captured index below the last: `MovedTo` the next index; otherwise `ClosedOnly`: `onClose` logged, index, pause and timer unchanged; touch slot and pending advances untouched |
| StoryViewerComponent.StoryViewer.GoToNext | src/components/organisms/StoryViewer.jsx:119-125 | `Performed(Next)`: below the last index `MovedTo` the next one, which is marked viewed by viewer 1; at the last `ClosedOnly`; pending advances and touch slot untouched; an in-range index stays in range; after a forward move while playing, the left bar is full and the new active bar empty |
| StoryViewerComponent.StoryViewer.GoToPrevious | src/components/organisms/StoryViewer.jsx:111-117 | `Performed(Previous)`: above 0 `MovedTo` the previous one, which is marked viewed by viewer 1; at 0 `ClosedOnly`; pending advances and touch slot untouched; an in-range index stays in range |
| StoryViewerComponent.StoryViewer.Close | src/components/organisms/StoryViewer.jsx:238 | `ClosedOnly`: the close button logs `onClose`, and no other field changes |
| StoryViewerComponent.StoryViewer.Perform | src/components/organisms/StoryViewer.jsx:247-248 | `Performed(a)`: the whole new state for previous, next (moving, or closing at either end), close, or nothing (no change); the index stays in range |
| StoryViewerComponent.StoryViewer.KeyDown | src/components/organisms/StoryViewer.jsx:148-166 | `Performed(KeyAction(key))`: ArrowLeft goes back, ArrowRight and space go forward (closing at the ends), Escape closes, any other key changes nothing |
| StoryViewerComponent.StoryViewer.TouchStart | src/components/organisms/StoryViewer.jsx:127-129 | the touch slot holds the x position, nothing else changes |
| StoryViewerComponent.StoryViewer.TouchEnd | src/components/organisms/StoryViewer.jsx:131-146 | `Performed(SwipeAction(start, x))`: a missing or zero start, or a short swipe, changes nothing; a long swipe moves or closes at the ends; the slot is cleared unless the start was missing or zero |
| StoryViewerComponent.StoryViewer.RunTimerEffect | src/components/organisms/StoryViewer.jsx:40-48 | unpaused: the timer restarts at 0 now; paused: the frame is cancelled and the bar frozen |
| StoryViewerComponent.StoryViewer.TogglePause | src/components/organisms/StoryViewer.jsx:222 | flips pause; pausing freezes the bar, resuming restarts it at 0 |
| StoryViewerComponent.StoryViewer.MediaReady | src/components/organisms/StoryViewer.jsx:264 | un-pauses; the timer restarts only if it was paused |
| StoryViewerComponent.StoryViewer.Tick | src/components/organisms/StoryViewer.jsx:88-99 | below 5000 ms the bar shows the elapsed time and another frame follows; at 5000 ms or more the bar is full, no frame follows, and exactly one delayed advance is scheduled |
| StoryViewerComponent.StoryViewer.FireAdvance | src/components/organisms/StoryViewer.jsx:94 | the oldest delayed advance is dequeued and runs `goToNext` from the index it captured: `MovedTo` the next index, or `ClosedOnly` from the last; with none pending nothing changes |
| StoryViewerComponent.AutoAdvance | src/components/organisms/StoryViewer.jsx:82-125 | two stories: 5000 ms after opening, the second is shown, marked viewed by viewer 1, with its bar at 0 |
| PostActionsComponent.ToggleLike | src/components/molecules/PostActions.jsx:20-23 | liked flips; the count goes up by one when it becomes liked and down by one otherwise |
| PostActionsComponent.ToggleLikeKeepsBalance | src/components/molecules/PostActions.jsx:16-23 | `likes == initialLikes + liked - initialLiked` is preserved; there is no floor at 0 |
| PostActionsComponent.ToggleTimesParity | src/components/molecules/PostActions.jsx:20-24 | two likes restore the pair; after n likes only the parity of n matters |
| PostActionsComponent.PostActions.constructor | src/components/molecules/PostActions.jsx:16-18 | state starts from the initial props, balanced |
| PostActionsComponent.PostActions.HandleLike | src/components/molecules/PostActions.jsx:20-25 | the pair toggles as `ToggleLike`, saved unchanged, `onLike(postId, newLiked)` when given |
| PostActionsComponent.PostActions.HandleSave | src/components/molecules/PostActions.jsx:27-32 | saved flips, liked and likes untouched, `onSave(postId, newSaved)` when given, and the toast matching the new state |
| PostActionsComponent.PostActions.HandleShare | src/components/molecules/PostActions.jsx:34-37 | `onShare(postId)` when given and the copy toast; like and save state untouched |
| DoubleClickHook.DoubleClickDetector.constructor | src/hooks/useDoubleClick.js:3-4 | starts idle with nothing fired |
| DoubleClickHook.DoubleClickDetector.Click | src/hooks/useDoubleClick.js:6-19 | with a pending timeout: cancel it, go idle, fire `onDoubleClick` once; when idle: one pending timeout for these arguments, nothing fired; never more than one pending |
| DoubleClickHook.DoubleClickDetector.Expire | src/hooks/useDoubleClick.js:14-17 | the pending timeout runs: idle again and `onSingleClick` once with the first click's arguments |
| DoubleClickHook.ClickPair | src/hooks/useDoubleClick.js:6-19 | two clicks from idle fire only `onDoubleClick`, once, and leave it idle for a fresh start |
| SearchPageComponent.FilterPosts | src/components/pages/SearchPage.jsx:33-49 | empty term: nothing; otherwise exactly the posts whose caption contains the term ignoring case, each as many times as loaded, in loaded order |
| SearchPageComponent.FilterUsers | src/components/pages/SearchPage.jsx:33-49 | empty term: nothing; otherwise exactly the users whose username or display name contains the term ignoring case, each as many times as loaded, in loaded order |
| SearchPageComponent.PostMatchIgnoresCase | src/components/pages/SearchPage.jsx:35-37 | lowering the term does not change which posts match |
| SearchPageComponent.SearchPage.constructor | src/components/pages/SearchPage.jsx:15-21 | empty lists and term, filters consistent |
| SearchPageComponent.SearchPage.Refilter | src/components/pages/SearchPage.jsx:33-49 | both filtered lists are the filters of the loaded lists by the term |
| SearchPageComponent.SearchPage.Loaded | src/components/pages/SearchPage.jsx:51-66 | the loaded lists are stored and the filters recomputed |
| SearchPageComponent.SearchPage.HandleSearch | src/components/pages/SearchPage.jsx:68-70 | the trimmed term is stored and the filters recomputed |
| SearchPageComponent.SearchPage.SelectHashtag | src/components/pages/SearchPage.jsx:184 | a chip's tag is stored verbatim and the filters recomputed |
| MyStoryPageComponent.CheckMedia | src/components/pages/MyStoryPage.jsx:44-54 | wrong type iff neither `image/` nor `video/`; too large iff the type is fine and the size exceeds 10 MiB; accepted otherwise, exactly 10 MiB included |
| MyStoryPageComponent.MediaKind | src/components/pages/MyStoryPage.jsx:78 | `image` iff the type starts with `image/`, else `video` |
| MyStoryPageComponent.StoryRequest | src/components/pages/MyStoryPage.jsx:66-85 | no request without a file; otherwise the user, URL, derived media type and caption |
| MyStoryPageComponent.CreatedStoryKind | src/components/pages/MyStoryPage.jsx:78-85 | the created story's media type is the derived one and its caption the typed one |
| MyStoryPageComponent.MyStoryPage.constructor | src/components/pages/MyStoryPage.jsx:18-20 | no file, no preview, empty caption |
| MyStoryPageComponent.MyStoryPage.HandleMediaChange | src/components/pages/MyStoryPage.jsx:40-64 | no file: nothing; rejected: the old choice stays and the matching toast is shown; accepted: the file and its preview become the choice |
| MyStoryPageComponent.MyStoryPage.SetCaption | src/components/pages/MyStoryPage.jsx:197 | the caption becomes the typed text |
| MyStoryPageComponent.MyStoryPage.HandleRemoveMedia | src/components/pages/MyStoryPage.jsx:96-102 | file and preview cleared, caption kept |
| MyStoryPageComponent.MyStoryPage.HandleCreateStory | src/components/pages/MyStoryPage.jsx:66-94 | without a file: error toast and the repository untouched; with one: exactly one story created from `StoryRequest` under a fresh id (`lastId` up by one, above every stored id) and the success toast; file, preview and caption kept |
| CreatePageComponent.FilterStyle | src/components/pages/CreatePage.jsx:69-79 | a non-empty style iff the name is one of the five real filters; `none` and unknown names give the empty string |
| CreatePageComponent.Payload | src/components/pages/CreatePage.jsx:52-57 | the selected image, the trimmed caption, the selected filter, user 1, no id |
| CreatePageComponent.CreatePage.constructor | src/components/pages/CreatePage.jsx:11-14 | no image, empty preview and caption, filter `none` |
| CreatePageComponent.CreatePage.HandleImageSelect | src/components/pages/CreatePage.jsx:36-39 | selection and preview become the same URL |
| CreatePageComponent.CreatePage.ChooseDifferentImage | src/components/pages/CreatePage.jsx:130-133 | selection and preview cleared |
| CreatePageComponent.CreatePage.SelectFilter | src/components/pages/CreatePage.jsx:153 | the chosen filter is stored |
| CreatePageComponent.CreatePage.SetCaption | src/components/pages/CreatePage.jsx:172 | the caption becomes the typed text |
| CreatePageComponent.CreatePage.HandleSubmit | src/components/pages/CreatePage.jsx:41-67 | without an image (or with an empty URL): error toast and the repository untouched; otherwise exactly `Payload` is created at the front and the success toast shown |
| CommentInputComponent.Submission | src/components/molecules/CommentInput.jsx:8-14 | something is sent iff the comment is not blank, and then its trimmed, non-empty text |
| CommentInputComponent.SubmissionStable | src/components/molecules/CommentInput.jsx:10-11 | re-submitting the sent text sends it unchanged |
| CommentInputComponent.CommentInput.constructor | src/components/molecules/CommentInput.jsx:6 | empty comment, nothing sent |
| CommentInputComponent.CommentInput.Change | src/components/molecules/CommentInput.jsx:21 | the comment becomes the typed text |
| CommentInputComponent.CommentInput.ShowsPostButton | src/components/molecules/CommentInput.jsx:25 | the Post button shows iff the comment is not blank |
| CommentInputComponent.CommentInput.HandleSubmit | src/components/molecules/CommentInput.jsx:8-14 | a non-blank comment is sent trimmed and the box cleared; a blank one sends nothing and is kept |
| Formatters.NatToString | src/utils/formatters.js:18 | decimal digits, no leading zero |
| Formatters.IntToString | src/utils/formatters.js:18 | `toString` of an integer: a minus sign iff negative, then digits |
| Formatters.ParseNatToString | src/utils/formatters.js:18 | reading back the printed digits gives the number |
| Formatters.IntToStringRoundTrip | src/utils/formatters.js:18 | reading back the printed integer gives the integer |
| Formatters.FormatNumber | src/utils/formatters.js:11-19 | millions iff at least 1000000, thousands iff in [1000, 1000000), plain text iff below 1000, and the plain text reads back as the number |
| Formatters.WordRun | src/utils/formatters.js:22 | the greedy `\w+` run: all word characters, followed by a non-word character or the end |
| Formatters.ScanWellFormed | src/utils/formatters.js:22 | the split is well formed: tags are maximal non-empty words, no literal sigil is followed by a word character, and the split starts with a literal word character iff the text does |
| Formatters.SourceCons | src/utils/formatters.js:22 | the text a split stands for is the text of its first piece followed by that of the rest |
| Formatters.MarkupCons | src/utils/formatters.js:22 | the markup of a split is the markup of its first piece followed by that of the rest |
| Formatters.TagRoundTrip | src/utils/formatters.js:22 | a sigil followed by a word run reads back as that sigil and word |
| Formatters.LiteralRoundTrip | src/utils/formatters.js:22 | a character that does not start a tag reads back as itself |
| Formatters.ScanRoundTrip | src/utils/formatters.js:22 | removing the inserted markup gives back the original text |
| Formatters.ScanUnique | src/utils/formatters.js:22 | the split is the only well-formed reading of the text |
| Formatters.NoSigilUnchanged | src/utils/formatters.js:22 | text without the sigil comes out unchanged |
| Formatters.FormatHashtags | src/utils/formatters.js:21-23 | text without `#` is returned unchanged |
| Formatters.FormatMentions | src/utils/formatters.js:25-27 | text without `@` is returned unchanged |

## Left out

- Latency and promises: the `delay` awaits only simulate a network. Every service call is synchronous, and React state updates take effect at once.
- Rendering: JSX, animation (framer-motion, react-spring), styling tables and routing have no behaviour to model. Toasts are kept only as a list of their texts.
- Load orchestration: the loading/error flags and the try/catch around awaited calls are left out. These are `loadUser`, `loadViewers`, `loadSearchData`'s error path, the "Failed to create …" toasts and `navigate`. In the story page, `user.Id` becomes the `userId` parameter of `HandleCreateStory`.
- The story viewer's info panel (`showInfo`), its viewer list (`getStoryViewers`/`getUserById` results) and the `userId` prop are display only.
- Touch coordinates: `clientX` is taken as an integer. A fractional swipe distance such as 50.5 px, which moves in the browser, cannot be expressed.
- Floating point: the progress percentage is held as integer milliseconds out of 5000. The `toFixed(1)` digits of the K/M branches of `formatNumber` are not modelled.
- Formatters.FormatNumber: for the K and M branches only the branch is stated, not the text.
- Host APIs: `Date`, `requestAnimationFrame`, `setTimeout`, `FileReader`, `URL.createObjectURL`, `document.getElementById` and key listeners. The clock is the `now` parameter. An animation frame is a call of `Tick`, and a delayed `goToNext` is a call of `FireAdvance`. The file reader's data URL and the object URL are parameters. The date formatters `formatTimeAgo` and `formatDate` belong to date-fns and are not part of this model.
- MyStoryPageComponent.MyStoryPage.HandleMediaChange: the preview is set together with the file. In the code it arrives later, when the file reader finishes.
- SearchPageComponent.FilterPosts: lower-casing covers ASCII letters only, not Unicode case mapping. The same holds for FilterUsers.
- Strings are sequences of Dafny characters, not UTF-16 code units.
- `parseInt` of ids: ids and user ids are integers already. A string id that parses to a number is not modelled.
- Aliasing: `getPostById`, `likePost` and the others return the stored object itself, so later changes show through the returned value. The model returns values.
- CreatePageComponent.FilterStyle: inherited object keys such as `constructor` are treated like any other unknown name, giving the empty string.
- PostService.SortNewestFirst: timestamps are integers. An unparsable date that would sort as `NaN` is not modelled.
- DoubleClickHook.DoubleClickDetector.Click: the 300 ms delay is abstract. Only the order of clicks and expiry matters.
- React batching: rapid clicks that React would batch within one render are modelled one after another.
