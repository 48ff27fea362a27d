/** The "create post" page: pick one of the sample images, a filter and a caption,
    then submit a post. */
module CreatePageComponent {
  import opened Wrappers
  import Text
  import SeqUtil
  import PostService

  /** The filter buttons, in display order. */
  const FilterNames: seq<string> := ["none", "vintage", "dramatic", "warm", "cool", "bright"]

  /** The user every new post is attributed to. */
  const CurrentUserId: int := 1

  /** `getFilterStyle`: the CSS filter of a named filter; `''` for `none` and for any
      name outside the table. */
  function FilterStyle(name: string): (css: string)
    ensures name !in FilterNames ==> css == ""
    ensures css != "" <==> name in FilterNames && name != "none"
  {
    if name == "vintage" then "sepia(0.3) contrast(1.2) brightness(0.9)"
    else if name == "dramatic" then "contrast(1.4) brightness(0.8) saturate(1.3)"
    else if name == "warm" then "sepia(0.2) saturate(1.2) hue-rotate(10deg)"
    else if name == "cool" then "saturate(1.1) hue-rotate(-10deg) brightness(1.1)"
    else if name == "bright" then "brightness(1.2) contrast(1.1) saturate(1.2)"
    else ""
  }

  /** `!selectedImage` is false: an image is chosen and its URL is not empty. */
  predicate HasImage(selectedImage: Option<string>)
  {
    selectedImage.Some? && selectedImage.value != ""
  }

  /** The `createPost` argument `handleSubmit` builds. */
  function Payload(imageUrl: string, caption: string, filter: string): (d: PostService.PostDraft)
    ensures d.Id.None? && d.userId == CurrentUserId && d.imageUrl == imageUrl && d.filter == filter
    ensures d.caption == Text.Trim(caption) && Text.IsTrimmed(d.caption)
  {
    PostService.PostDraft(None, CurrentUserId, imageUrl, Text.Trim(caption), filter)
  }

  class CreatePage {
    var selectedImage: Option<string>
    var imagePreview: string
    var caption: string
    var selectedFilter: string
    var toasts: seq<string>

    constructor ()
      ensures selectedImage.None? && imagePreview == "" && caption == "" && selectedFilter == "none"
      ensures toasts == []
    {
      selectedImage, imagePreview, caption, selectedFilter := None, "", "", "none";
      toasts := [];
    }

    /** `handleImageSelect`: the selection and the preview become the same URL. */
    method HandleImageSelect(imageUrl: string)
      modifies this
      ensures selectedImage == Some(imageUrl) && imagePreview == imageUrl
      ensures caption == old(caption) && selectedFilter == old(selectedFilter) && toasts == old(toasts)
    {
      selectedImage := Some(imageUrl);
      imagePreview := imageUrl;
    }

    /** "Choose Different Image": clear the selection and the preview. */
    method ChooseDifferentImage()
      modifies this
      ensures selectedImage.None? && imagePreview == ""
      ensures caption == old(caption) && selectedFilter == old(selectedFilter) && toasts == old(toasts)
    {
      selectedImage := None;
      imagePreview := "";
    }

    /** A filter button. */
    method SelectFilter(name: string)
      requires name in FilterNames
      modifies this
      ensures selectedFilter == name
      ensures selectedImage == old(selectedImage) && imagePreview == old(imagePreview)
      ensures caption == old(caption) && toasts == old(toasts)
    {
      selectedFilter := name;
    }

    method SetCaption(text: string)
      modifies this
      ensures caption == text
      ensures selectedImage == old(selectedImage) && imagePreview == old(imagePreview)
      ensures selectedFilter == old(selectedFilter) && toasts == old(toasts)
    {
      caption := text;
    }

    /** `handleSubmit`: without an image it toasts and creates nothing; with one it
        creates the post built by `Payload` at clock `now`. */
    method HandleSubmit(store: PostService.PostStore, now: int) returns (created: Option<PostService.Post>)
      modifies this, store
      ensures selectedImage == old(selectedImage) && imagePreview == old(imagePreview)
      ensures caption == old(caption) && selectedFilter == old(selectedFilter)
      ensures !HasImage(selectedImage) ==>
                created.None? && store.posts == old(store.posts) && toasts == old(toasts) + ["Please select an image"]
      ensures HasImage(selectedImage) ==>
                created.Some? &&
                created.value == PostService.NewPost(Payload(selectedImage.value, caption, selectedFilter),
                                                     SeqUtil.MaxWithZero(PostService.Ids(old(store.posts))), now) &&
                store.posts == [created.value] + old(store.posts) &&
                toasts == old(toasts) + ["Post created successfully!"]
    {
      if !HasImage(selectedImage) {
        toasts := toasts + ["Please select an image"];
        created := None;
        return;
      }
      var p := store.CreatePost(Payload(selectedImage.value, caption, selectedFilter), now);
      created := Some(p);
      toasts := toasts + ["Post created successfully!"];
    }
  }
}
