/**
 * The listing detail dialog a student opens from the results: the image
 * carousel and the application form.
 */
module ListingDetail {
  import opened Common
  import opened Database
  import opened Services

  /** The stock photo shown for a listing without images. */
  const Placeholder := "https://images.pexels.com/photos/1457842/pexels-photo-1457842.jpeg"

  /** The images the carousel cycles through: the listing's own, or the placeholder alone. */
  function Images(imageUrls: seq<string>): (r: seq<string>)
    ensures |r| > 0
    ensures imageUrls != [] ==> r == imageUrls
    ensures imageUrls == [] ==> r == [Placeholder]
  {
    if |imageUrls| > 0 then imageUrls else [Placeholder]
  }

  /** `nextImage`: one step forward, from the last image back to the first. */
  function NextIndex(i: nat, len: nat): (r: nat)
    requires i < len
    ensures r < len
    ensures r == if i + 1 == len then 0 else i + 1
  {
    (i + 1) % len
  }

  /** `prevImage`: one step back, from the first image to the last. */
  function PrevIndex(i: nat, len: nat): (r: nat)
    requires i < len
    ensures r < len
    ensures r == if i == 0 then len - 1 else i - 1
  {
    (i - 1 + len) % len
  }

  /** Going back undoes going forward, and going forward undoes going back. */
  lemma PrevNextInverse(i: nat, len: nat)
    requires i < len
    ensures PrevIndex(NextIndex(i, len), len) == i
    ensures NextIndex(PrevIndex(i, len), len) == i
  {
  }

  /** The index after `k` steps forward. */
  function Forward(i: nat, len: nat, k: nat): (r: nat)
    requires i < len
    ensures r < len
  {
    if k == 0 then i else NextIndex(Forward(i, len, k - 1), len)
  }

  /** Up to a full round, `k` steps forward add `k` and wrap once past the end. */
  lemma {:induction false} ForwardAdds(i: nat, len: nat, k: nat)
    requires i < len && k <= len
    ensures Forward(i, len, k) == if i + k < len then i + k else i + k - len
  {
    if k > 0 {
      ForwardAdds(i, len, k - 1);
    }
  }

  /** As many steps forward as there are images come back to the same image. */
  lemma FullRound(i: nat, len: nat)
    requires i < len
    ensures Forward(i, len, len) == i
  {
    ForwardAdds(i, len, len);
  }

  /** How the student applies: not chosen yet, alone, or with their group. */
  datatype ApplyMode = Unchosen | Individual | AsGroup

  /** The dialog's state for one listing, seen by one signed-in user. */
  class DetailModal {
    const listing: Listing
    const profile: Option<Profile>
    const images: seq<string>
    var currentImageIndex: nat
    var applyMode: ApplyMode
    var message: string
    var applying: bool
    var success: bool

    /** The shown image exists, and group mode is only ever entered with a group. */
    predicate Valid()
      reads this
    {
      && images == Images(listing.details.imageUrls)
      && currentImageIndex < |images|
      && (applyMode == AsGroup ==> profile.Some? && profile.value.groupId.Some?)
    }

    constructor (listing: Listing, profile: Option<Profile>)
      ensures Valid()
      ensures this.listing == listing && this.profile == profile
      ensures currentImageIndex == 0 && applyMode == Unchosen && message == ""
      ensures !applying && !success
    {
      this.listing := listing;
      this.profile := profile;
      images := Images(listing.details.imageUrls);
      currentImageIndex := 0;
      applyMode := Unchosen;
      message := "";
      applying := false;
      success := false;
    }

    method NextImage()
      requires Valid()
      modifies this
      ensures Valid()
      ensures currentImageIndex == NextIndex(old(currentImageIndex), |images|)
      ensures applyMode == old(applyMode) && message == old(message)
      ensures applying == old(applying) && success == old(success)
    {
      currentImageIndex := NextIndex(currentImageIndex, |images|);
    }

    method PrevImage()
      requires Valid()
      modifies this
      ensures Valid()
      ensures currentImageIndex == PrevIndex(old(currentImageIndex), |images|)
      ensures applyMode == old(applyMode) && message == old(message)
      ensures applying == old(applying) && success == old(success)
    {
      currentImageIndex := PrevIndex(currentImageIndex, |images|);
    }

    /** Clicking a thumbnail shows that image. */
    method SelectImage(index: nat)
      requires Valid() && index < |images|
      modifies this
      ensures Valid() && currentImageIndex == index
      ensures applyMode == old(applyMode) && message == old(message)
      ensures applying == old(applying) && success == old(success)
    {
      currentImageIndex := index;
    }

    method ChooseIndividual()
      requires Valid()
      modifies this
      ensures Valid() && applyMode == Individual
      ensures currentImageIndex == old(currentImageIndex) && message == old(message)
      ensures applying == old(applying) && success == old(success)
    {
      applyMode := Individual;
    }

    /** "Apply as Group": entered only when the profile has a group; otherwise nothing changes. */
    method ChooseGroup()
      requires Valid()
      modifies this
      ensures Valid()
      ensures applyMode == if profile.Some? && profile.value.groupId.Some? then AsGroup else old(applyMode)
      ensures currentImageIndex == old(currentImageIndex) && message == old(message)
      ensures applying == old(applying) && success == old(success)
    {
      if profile.Some? && profile.value.groupId.Some? {
        applyMode := AsGroup;
      }
    }

    /** "Cancel": back to choosing. */
    method CancelApply()
      requires Valid()
      modifies this
      ensures Valid() && applyMode == Unchosen
      ensures currentImageIndex == old(currentImageIndex) && message == old(message)
      ensures applying == old(applying) && success == old(success)
    {
      applyMode := Unchosen;
    }

    method EditMessage(text: string)
      requires Valid()
      modifies this
      ensures Valid() && message == text
      ensures currentImageIndex == old(currentImageIndex) && applyMode == old(applyMode)
      ensures applying == old(applying) && success == old(success)
    {
      message := text;
    }

    /**
     * `handleApply`: nothing for a visitor without a profile or for a
     * landlord. Otherwise the application is created with the profile's group
     * in group mode and no group otherwise, and `success` is set only when the
     * creation succeeded.
     */
    method HandleApply(backend: Backend, newId: string, now: int) returns (sent: Option<Result<Application>>)
      requires Valid() && backend.Valid() && newId !in backend.applications
      modifies this, backend
      ensures Valid() && backend.Valid()
      ensures currentImageIndex == old(currentImageIndex) && applyMode == old(applyMode)
      ensures message == old(message)
      ensures backend.currentUser == old(backend.currentUser) && backend.profiles == old(backend.profiles)
      ensures backend.groups == old(backend.groups) && backend.listings == old(backend.listings)
      ensures (profile.None? || profile.value.isLandlord) ==>
                && sent.None? && success == old(success) && applying == old(applying)
                && backend.applications == old(backend.applications)
      ensures profile.Some? && !profile.value.isLandlord ==>
                && sent.Some? && !applying
                && success == (old(success) || sent.value.Ok?)
                && (sent.value.Ok? ==>
                      && sent.value.value.listingId == listing.id
                      && sent.value.value.groupId == (if applyMode == AsGroup then profile.value.groupId else None)
                      && sent.value.value.message == message
                      && sent.value.value.status == Pending
                      && backend.applications == old(backend.applications)[newId := sent.value.value])
                && (sent.value.Err? ==> backend.applications == old(backend.applications))
    {
      if profile.None? || profile.value.isLandlord {
        return None;
      }
      applying := true;
      var groupId := if applyMode == AsGroup then profile.value.groupId else None;
      var r := backend.CreateApplication(listing.id, groupId, message, newId, now);
      if r.Ok? {
        success := true;
      }
      applying := false;
      sent := Some(r);
    }
  }
}
