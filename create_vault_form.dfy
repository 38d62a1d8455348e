/** The create form of `components/CreateVaultForm.tsx`: the media list the user
    builds by adding and removing photos, the guard before a suggestion is asked
    for, and the submit sequence that hands the form's contents to `onCreate`.
    Generated ids, preview URLs and the parsed unlock instant are parameters. */
module CreateVaultForm {
  import opened Prelude
  import opened Types

  /** One selected file with the id and preview URL generated for it. */
  datatype Upload = Upload(id: string, previewUrl: string, file: FileRef)

  /** The text shown when the suggestion service fails. */
  const SuggestionFallback: string := "Could not generate a suggestion at this time. Please write your own message."

  /** One new image item per selected file, in selection order, each holding its
      file for the later upload. */
  function NewMediaItems(uploads: seq<Upload>): (items: seq<MediaItem>)
    ensures |items| == |uploads|
    ensures forall k :: 0 <= k < |uploads| ==>
      && items[k].kind == Image && items[k].id == uploads[k].id
      && items[k].url == uploads[k].previewUrl && items[k].file == Some(uploads[k].file)
  {
    if uploads == [] then []
    else [MediaItem(uploads[0].id, Image, uploads[0].previewUrl, Some(uploads[0].file))] + NewMediaItems(uploads[1..])
  }

  /** The media list after a file selection (`None` when the browser gives no
      file list): the new items after all existing ones. */
  function AddFiles(media: seq<MediaItem>, files: Option<seq<Upload>>): (r: seq<MediaItem>)
    ensures files.None? ==> r == media
    ensures files.Some? ==> |r| == |media| + |files.value|
    ensures r[..|media|] == media
    ensures files.Some? ==> r[|media|..] == NewMediaItems(files.value)
  {
    match files
    case None => media
    case Some(uploads) => media + NewMediaItems(uploads)
  }

  /** The filter condition of a removal: the item does not carry `id`. */
  function NotId(id: string): MediaItem -> bool
  {
    (item: MediaItem) => item.id != id
  }

  /** The items a removal of `id` drops: those carrying `id`. */
  function HasId(id: string): MediaItem -> bool
  {
    (item: MediaItem) => item.id == id
  }

  /** The media list without the items carrying `id`. */
  function RemoveMedia(media: seq<MediaItem>, id: string): (r: seq<MediaItem>)
    ensures forall x :: x in r <==> x in media && x.id != id
    ensures forall k :: 0 <= k < |r| ==> r[k].id != id
  {
    Filter(media, NotId(id))
  }

  /** Removing drops exactly the items carrying `id`, every copy of each other item
      stays, in order, and removing an id nobody carries changes nothing. */
  lemma RemoveMediaKeepsTheRest(media: seq<MediaItem>, id: string)
    ensures multiset(RemoveMedia(media, id)) + multiset(Filter(media, HasId(id))) == multiset(media)
    ensures forall k :: 0 <= k < |Filter(media, HasId(id))| ==> Filter(media, HasId(id))[k].id == id
    ensures IsSubsequence(RemoveMedia(media, id), media)
    ensures (forall k :: 0 <= k < |media| ==> media[k].id != id) ==> RemoveMedia(media, id) == media
  {
    FilterPartition(media, NotId(id), HasId(id));
    FilterIsSubsequence(media, NotId(id));
    if forall k :: 0 <= k < |media| ==> media[k].id != id {
      FilterKeepsAll(media, NotId(id));
    }
  }

  /** Removing a photo just added under a new id gives back the list as it was. */
  lemma RemoveUndoesAdd(media: seq<MediaItem>, upload: Upload)
    requires forall k :: 0 <= k < |media| ==> media[k].id != upload.id
    ensures RemoveMedia(AddFiles(media, Some([upload])), upload.id) == media
  {
    var item := MediaItem(upload.id, Image, upload.previewUrl, Some(upload.file));
    assert AddFiles(media, Some([upload])) == media + [item];
    FilterAppend(media, item, NotId(upload.id));
    FilterKeepsAll(media, NotId(upload.id));
  }

  /** A suggestion may be asked for once there is a title or a photo. */
  predicate CanSuggest(title: string, media: seq<MediaItem>)
  {
    !(title == "" && |media| == 0)
  }

  /** What the suggestion service settles with: its text, or the fallback. */
  function Suggestion(reply: Option<string>): (text: string)
    ensures reply.Some? ==> text == reply.value
    ensures reply.None? ==> text == SuggestionFallback
  {
    match reply
    case Some(t) => t
    case None => SuggestionFallback
  }

  class VaultForm {
    var title: string
    var description: string
    /** The raw value of the date-time input; empty until one is picked. */
    var unlockDate: string
    var media: seq<MediaItem>
    var isGenerating: bool
    var isSubmitting: bool

    constructor ()
      ensures title == "" && description == "" && unlockDate == "" && media == []
      ensures !isGenerating && !isSubmitting
    {
      title, description, unlockDate := "", "", "";
      media := [];
      isGenerating, isSubmitting := false, false;
    }

    method HandleFileChange(files: Option<seq<Upload>>)
      modifies this
      ensures media == AddFiles(old(media), files)
      ensures title == old(title) && description == old(description) && unlockDate == old(unlockDate)
      ensures isGenerating == old(isGenerating) && isSubmitting == old(isSubmitting)
    {
      media := AddFiles(media, files);
    }

    method RemoveMediaItem(id: string)
      modifies this
      ensures media == RemoveMedia(old(media), id)
      ensures title == old(title) && description == old(description) && unlockDate == old(unlockDate)
      ensures isGenerating == old(isGenerating) && isSubmitting == old(isSubmitting)
    {
      media := RemoveMedia(media, id);
    }

    /** Without a title and without photos the request is refused and nothing
        changes; otherwise the description becomes what the service settles with
        (`reply`) and the generating flag is cleared again. */
    method HandleGenerateDescription(reply: Option<string>) returns (requested: bool)
      modifies this
      ensures requested == CanSuggest(old(title), old(media))
      ensures !requested ==> unchanged(this)
      ensures requested ==>
        && description == Suggestion(reply) && !isGenerating
        && title == old(title) && media == old(media) && unlockDate == old(unlockDate)
        && isSubmitting == old(isSubmitting)
    {
      if title == "" && |media| == 0 {
        return false;
      }
      isGenerating := true;
      description := Suggestion(reply);
      isGenerating := false;
      requested := true;
    }

    /** The submit handler up to the awaited `onCreate`: refused without an unlock
        date; otherwise the form is marked submitting and its title, description,
        media and the instant `unlockInstant` parsed from the input are handed on. */
    method HandleSubmit(unlockInstant: int) returns (submitted: Option<TimeVaultData>)
      modifies this
      ensures old(unlockDate) == "" ==> submitted.None? && unchanged(this)
      ensures old(unlockDate) != "" ==>
        && submitted == Some(TimeVaultData(old(title), old(description), unlockInstant, old(media)))
        && isSubmitting
        && title == old(title) && description == old(description) && unlockDate == old(unlockDate)
        && media == old(media) && isGenerating == old(isGenerating)
    {
      if unlockDate == "" {
        return None;
      }
      isSubmitting := true;
      submitted := Some(TimeVaultData(title, description, unlockInstant, media));
    }

    /** The rest of the submit handler, reached only when `onCreate` resolves. */
    method FinishSubmit()
      modifies this
      ensures !isSubmitting
      ensures title == old(title) && description == old(description) && unlockDate == old(unlockDate)
      ensures media == old(media) && isGenerating == old(isGenerating)
    {
      isSubmitting := false;
    }
  }
}
