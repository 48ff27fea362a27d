/** The "create story" page: choose one media file, check its type and size, and
    create a story from it. */
module MyStoryPageComponent {
  import opened Wrappers
  import Text
  import StoryService

  /** The size limit, 10 MiB; a file of exactly this size is accepted. */
  const MaxMediaBytes: int := 10 * 1024 * 1024

  /** A chosen file: its name, MIME type and size in bytes. */
  datatype MediaFile = MediaFile(name: string, mimeType: string, size: int)

  datatype MediaCheck = Accepted | WrongType | TooLarge

  predicate IsImageOrVideo(f: MediaFile)
  {
    Text.StartsWith(f.mimeType, "image/") || Text.StartsWith(f.mimeType, "video/")
  }

  /** `handleMediaChange`'s checks, type first, then size. */
  function CheckMedia(f: MediaFile): (c: MediaCheck)
    ensures c == WrongType <==> !IsImageOrVideo(f)
    ensures c == TooLarge <==> IsImageOrVideo(f) && f.size > MaxMediaBytes
    ensures c == Accepted <==> IsImageOrVideo(f) && f.size <= 10485760
  {
    if !IsImageOrVideo(f) then WrongType
    else if f.size > MaxMediaBytes then TooLarge
    else Accepted
  }

  function CheckToast(c: MediaCheck): string
  {
    match c
    case WrongType => "Please select an image or video file"
    case TooLarge => "File size must be less than 10MB"
    case Accepted => ""
  }

  /** The story's media type: image for an `image/` MIME type, video for anything else. */
  function MediaKind(f: MediaFile): (kind: string)
    ensures kind == "image" <==> Text.StartsWith(f.mimeType, "image/")
    ensures kind == "video" <==> !Text.StartsWith(f.mimeType, "image/")
  {
    if Text.StartsWith(f.mimeType, "image/") then "image" else "video"
  }

  /** The `createStory` argument for the chosen file, or nothing without a file. */
  function StoryRequest(mediaFile: Option<MediaFile>, userId: int, mediaUrl: string, caption: string)
    : (r: Option<StoryService.StoryDraft>)
    ensures mediaFile.None? <==> r.None?
    ensures r.Some? ==> r.value.userId == userId && r.value.mediaUrl == mediaUrl
    ensures r.Some? ==> r.value.mediaType == Some(MediaKind(mediaFile.value)) && r.value.caption == Some(caption)
  {
    match mediaFile
    case None => None
    case Some(f) => Some(StoryService.StoryDraft(userId, mediaUrl, Some(MediaKind(f)), Some(caption)))
  }

  /** The created story's media type is the one derived from the file: image for an
      image MIME type, video otherwise, never the repository's default. */
  lemma CreatedStoryKind(f: MediaFile, userId: int, mediaUrl: string, caption: string, id: int, now: int)
    ensures var s := StoryService.NewStory(StoryRequest(Some(f), userId, mediaUrl, caption).value, id, now);
            (s.mediaType == "image" <==> Text.StartsWith(f.mimeType, "image/")) && s.caption == caption
  {
  }

  class MyStoryPage {
    var mediaFile: Option<MediaFile>
    /** The data URL the file reader produced for the chosen file, `""` when none. */
    var mediaPreview: string
    var caption: string
    var toasts: seq<string>

    constructor ()
      ensures mediaFile.None? && mediaPreview == "" && caption == "" && toasts == []
    {
      mediaFile, mediaPreview, caption, toasts := None, "", "", [];
    }

    /** `handleMediaChange`: no file does nothing; a rejected file leaves the current
        choice and toasts why; an accepted one becomes the choice, with `preview` as
        the file reader's result. */
    method HandleMediaChange(file: Option<MediaFile>, preview: string)
      modifies this
      ensures caption == old(caption)
      ensures file.None? ==> mediaFile == old(mediaFile) && mediaPreview == old(mediaPreview) && toasts == old(toasts)
      ensures file.Some? && CheckMedia(file.value) != Accepted ==>
                mediaFile == old(mediaFile) && mediaPreview == old(mediaPreview) &&
                toasts == old(toasts) + [CheckToast(CheckMedia(file.value))]
      ensures file.Some? && CheckMedia(file.value) == Accepted ==>
                mediaFile == file && mediaPreview == preview && toasts == old(toasts)
    {
      if file.None? {
        return;
      }
      var check := CheckMedia(file.value);
      if check != Accepted {
        toasts := toasts + [CheckToast(check)];
        return;
      }
      mediaFile := file;
      mediaPreview := preview;
    }

    method SetCaption(text: string)
      modifies this
      ensures caption == text && mediaFile == old(mediaFile) && mediaPreview == old(mediaPreview)
      ensures toasts == old(toasts)
    {
      caption := text;
    }

    /** `handleRemoveMedia`: forget the file and its preview. */
    method HandleRemoveMedia()
      modifies this
      ensures mediaFile.None? && mediaPreview == ""
      ensures caption == old(caption) && toasts == old(toasts)
    {
      mediaFile := None;
      mediaPreview := "";
    }

    /** `handleCreateStory` for user `userId`, with `mediaUrl` the object URL of the file:
        without a file it toasts and leaves the repository alone; with one it creates
        the story. */
    method HandleCreateStory(store: StoryService.StoryStore, userId: int, mediaUrl: string, now: int)
      returns (created: Option<StoryService.Story>)
      requires store.Valid()
      modifies this, store
      ensures store.Valid()
      ensures mediaFile == old(mediaFile) && mediaPreview == old(mediaPreview) && caption == old(caption)
      ensures old(mediaFile).None? ==>
                created.None? && store.stories == old(store.stories) && store.lastId == old(store.lastId) &&
                toasts == old(toasts) + ["Please select a media file"]
      ensures old(mediaFile).Some? ==>
                created.Some? &&
                created.value == StoryService.NewStory(StoryRequest(mediaFile, userId, mediaUrl, caption).value, store.lastId, now) &&
                store.lastId == old(store.lastId) + 1 &&
                store.stories == old(store.stories) + [created.value] &&
                (forall i :: 0 <= i < |old(store.stories)| ==> old(store.stories)[i].Id < created.value.Id) &&
                toasts == old(toasts) + ["Story created successfully!"]
    {
      match StoryRequest(mediaFile, userId, mediaUrl, caption)
      case None =>
        toasts := toasts + ["Please select a media file"];
        created := None;
      case Some(draft) =>
        var s := store.CreateStory(draft, now);
        created := Some(s);
        toasts := toasts + ["Story created successfully!"];
    }
  }
}
