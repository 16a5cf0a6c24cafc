/** The gallery page: the list of saved artworks fetched once for the
    signed-in user, and the detail dialog whose image cycles through an
    entry's final, original and masked images on each click. */
module Gallery {
  import opened Common

  /** A saved artwork, as the account backend lists it. */
  datatype Entry = Entry(
    animal: string, artName: string, createdAt: string, description: string,
    finalImageUrl: string, maskedImageUrl: string, originalImageUrl: string, prompt: string)

  /** The three images of an entry are pairwise different. */
  predicate DistinctImages(e: Entry) {
    && e.finalImageUrl != e.originalImageUrl
    && e.originalImageUrl != e.maskedImageUrl
    && e.maskedImageUrl != e.finalImageUrl
  }

  /** The image shown after one click on `cur`: final to original,
      original to masked, anything else to final. */
  function NextImage(cur: string, e: Entry): (next: string)
    ensures next == e.finalImageUrl || next == e.originalImageUrl || next == e.maskedImageUrl
    ensures cur != e.finalImageUrl && cur != e.originalImageUrl ==> next == e.finalImageUrl
  {
    if cur == e.finalImageUrl then e.originalImageUrl
    else if cur == e.originalImageUrl then e.maskedImageUrl
    else e.finalImageUrl
  }

  /** The image shown after `n` clicks on a freshly opened dialog. */
  function ImageAfter(n: nat, e: Entry): string {
    if n == 0 then e.finalImageUrl else NextImage(ImageAfter(n - 1, e), e)
  }

  /** With three different images, the clicks walk final, original, masked
      and around again: the image after `n` clicks depends on `n % 3`. */
  lemma {:induction false} ImageCycle(n: nat, e: Entry)
    requires DistinctImages(e)
    ensures ImageAfter(n, e) ==
      (if n % 3 == 0 then e.finalImageUrl else if n % 3 == 1 then e.originalImageUrl else e.maskedImageUrl)
  {
    if n > 0 {
      ImageCycle(n - 1, e);
    }
  }

  /** Three clicks bring the final image back exactly when the images are
      pairwise different or the original equals the final one. Otherwise
      the masked image equals the original or the final one, and the
      clicks settle into a shorter loop that misses the final image on the
      third click. */
  lemma ThreeClicksReturn(e: Entry)
    ensures ImageAfter(3, e) == e.finalImageUrl
      <==> DistinctImages(e) || e.originalImageUrl == e.finalImageUrl
  {
    assert ImageAfter(1, e) == e.originalImageUrl;
    assert ImageAfter(2, e) == NextImage(e.originalImageUrl, e);
  }

  /** Whatever the clicks, only the entry's own images are shown. */
  lemma OnlyEntryImagesShown(n: nat, e: Entry)
    ensures ImageAfter(n, e) in {e.finalImageUrl, e.originalImageUrl, e.maskedImageUrl}
  {
  }

  /** The detail dialog of one entry. */
  class GalleryModal {
    const entry: Entry
    var curImage: string
    ghost var clicks: nat

    ghost predicate Valid()
      reads this
    {
      curImage == ImageAfter(clicks, entry)
    }

    /** Opening the dialog shows the final image. */
    constructor (entry: Entry)
      ensures this.entry == entry && Valid()
      ensures clicks == 0 && curImage == entry.finalImageUrl
    {
      this.entry := entry;
      curImage := entry.finalImageUrl;
      clicks := 0;
    }

    /** A click on the image moves to the next one of the cycle. */
    method ClickImage()
      requires Valid()
      modifies this
      ensures Valid() && clicks == old(clicks) + 1
      ensures curImage == NextImage(old(curImage), entry)
    {
      curImage := NextImage(curImage, entry);
      clicks := clicks + 1;
    }
  }

  /** The page itself. */
  class GalleryPage {
    var loading: bool
    var galleryData: seq<Entry>
    var selectedEntry: Option<Entry>

    /** Mounting: the spinner shows, no entries and no dialog. */
    constructor ()
      ensures loading && galleryData == [] && selectedEntry == None
    {
      loading := true;
      galleryData := [];
      selectedEntry := None;
    }

    /** `fetchGallery`. Without a signed-in user it makes no call and only
        stops the spinner. Otherwise it asks for the user's gallery; success
        stores the listed entries (none when the response has no `gallery`
        field), failure leaves the entries as they were; the spinner stops
        either way. */
    method FetchGallery(uid: Option<string>, response: Outcome<Option<seq<Entry>>>)
      returns (request: Option<string>)
      modifies this`loading, this`galleryData
      ensures !loading
      ensures request == (if Truthy(uid) then uid else None)
      ensures !Truthy(uid) ==> galleryData == old(galleryData)
      ensures Truthy(uid) && response.Success? ==>
        galleryData == (if response.payload.Some? then response.payload.value else [])
      ensures Truthy(uid) && response.Failure? ==> galleryData == old(galleryData)
    {
      if !Truthy(uid) {
        loading := false;
        return None;
      }
      request := uid;
      match response {
        case Success(gallery) =>
          galleryData := if gallery.Some? then gallery.value else [];
        case Failure(_) =>
      }
      loading := false;
    }

    /** A click on a card opens its dialog. */
    method SelectEntry(e: Entry)
      modifies this`selectedEntry
      ensures selectedEntry == Some(e)
    {
      selectedEntry := Some(e);
    }

    /** Closing the dialog. */
    method CloseModal()
      modifies this`selectedEntry
      ensures selectedEntry == None
    {
      selectedEntry := None;
    }
  }
}
