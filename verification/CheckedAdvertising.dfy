/**
 * The checked variant of the advertisement workflow. Its record keeps the
 * raw (possibly absent) inputs, validates only the advertiser, contact and
 * content fields, carries a sticky archived flag, and guards publication
 * on payment; its registry refuses a record whose identifier is already
 * taken. Review, approval and forwarding follow the same transitions as
 * the main workflow (Workflow.Assess, Workflow.Approve, Workflow.Receive).
 */
module CheckedAdvertising {
  import opened Text
  import opened Workflow

  /** The status string the suitability check compares against; no operator ever stores it. */
  const PendingSuitability := "Pending Suitability Assessment"

  class Advertisement {
    const advertId: string
    const advertiserName: Option<string>
    const contactInfo: Option<string>
    const content: Option<string>
    const placementPreferences: Option<string>
    const appearanceDate: Option<Date>
    const size: Option<string>
    var reviewStatus: ReviewStatus
    var isPaid: bool
    var isProcessed: bool
    var isArchived: bool

    /** A new record is Pending, unpaid, unprocessed and not archived; no field is checked. */
    constructor (advertId: string, advertiserName: Option<string>, contactInfo: Option<string>, content: Option<string>,
                 placementPreferences: Option<string>, appearanceDate: Option<Date>, size: Option<string>)
      ensures IsNew(advertId, advertiserName, contactInfo, content, placementPreferences, appearanceDate, size)
    {
      this.advertId := advertId;
      this.advertiserName := advertiserName;
      this.contactInfo := contactInfo;
      this.content := content;
      this.placementPreferences := placementPreferences;
      this.appearanceDate := appearanceDate;
      this.size := size;
      reviewStatus := Pending;
      isPaid := false;
      isProcessed := false;
      isArchived := false;
    }

    /** The record holds exactly these inputs and is Pending, unpaid, unprocessed and not archived. */
    predicate IsNew(advertId: string, advertiserName: Option<string>, contactInfo: Option<string>, content: Option<string>,
                    placementPreferences: Option<string>, appearanceDate: Option<Date>, size: Option<string>)
      reads this
    {
      && this.advertId == advertId && this.advertiserName == advertiserName
      && this.contactInfo == contactInfo && this.content == content
      && this.placementPreferences == placementPreferences
      && this.appearanceDate == appearanceDate && this.size == size
      && State() == Submitted && !isArchived
    }

    /** The fields the workflow operators change, as a value. */
    function State(): Lifecycle
      reads this
    {
      Lifecycle(reviewStatus, isPaid, isProcessed)
    }

    method SetReviewStatus(status: ReviewStatus)
      modifies this
      ensures State() == old(State()).(status := status) && isArchived == old(isArchived)
    {
      reviewStatus := status;
    }

    method SetPaid(paid: bool)
      modifies this
      ensures State() == old(State()).(isPaid := paid) && isArchived == old(isArchived)
    {
      isPaid := paid;
    }

    method SetProcessed(processed: bool)
      modifies this
      ensures State() == old(State()).(isProcessed := processed) && isArchived == old(isArchived)
    {
      isProcessed := processed;
    }

    method SetArchived(archived: bool)
      modifies this
      ensures State() == old(State()) && isArchived == archived
    {
      isArchived := archived;
    }

    /**
     * The completeness check: it fails exactly when the advertiser name,
     * the contact or the content is absent or empty; placement, date and
     * size are not looked at.
     */
    function ValidateDetails(): (r: Outcome<Error>)
      ensures r.Fail? <==> !Present(advertiserName) || !Present(contactInfo) || !Present(content)
      ensures r.Fail? ==> r.error == IncompleteDetails
    {
      if !Present(advertiserName) || !Present(contactInfo) || !Present(content) then Fail(IncompleteDetails)
      else Pass
    }

    /**
     * Archives the record when its date lies strictly before the cutoff.
     * The flag is never cleared and the processed flag plays no part; an
     * undated record fails with a null reference and is left unchanged.
     */
    method ArchiveIfUnused(sixMonthsAgo: Date) returns (r: Outcome<Error>)
      modifies this
      ensures r.Fail? <==> appearanceDate.None?
      ensures r.Fail? ==> r.error == NullReference
      ensures isArchived == (old(isArchived) || Dated(this, sixMonthsAgo))
      ensures State() == old(State())
    {
      if appearanceDate.None? {
        return Fail(NullReference);
      }
      if appearanceDate.value < sixMonthsAgo {
        SetArchived(true);
      }
      r := Pass;
    }

    /** Whether the record still awaits its suitability assessment; no stored status has that name. */
    function RequiresSuitability(): (pending: bool)
      reads this
      ensures !pending
    {
      StatusNameNeverPendingSuitability(reviewStatus);
      StatusName(reviewStatus) == PendingSuitability
    }

    /** The publication guard: it fails, asking for payment, exactly when the record is unpaid. */
    function EnsurePaidBeforePublication(): (r: Outcome<Error>)
      reads this
      ensures r.Fail? <==> !State().isPaid
      ensures r.Fail? ==> r.error == PaymentRequired
    {
      if !isPaid then Fail(PaymentRequired) else Pass
    }
  }

  /** None of the four stored status strings is the one the suitability check looks for. */
  lemma StatusNameNeverPendingSuitability(st: ReviewStatus)
    ensures StatusName(st) != PendingSuitability
  {
    assert StatusName(st)[0] != PendingSuitability[0] || |StatusName(st)| < |PendingSuitability|;
  }

  /** The record has a date, and it lies strictly before the cutoff. */
  predicate Dated(ad: Advertisement, sixMonthsAgo: Date)
  {
    ad.appearanceDate.Some? && ad.appearanceDate.value < sixMonthsAgo
  }

  /**
   * A record that passes the main workflow's capture checks passes this
   * completeness check, and this check fails exactly when capture would
   * fail on one of its first three fields.
   */
  lemma ValidateWeakerThanCapture(ad: Advertisement)
    ensures var check := CheckCapture(ad.advertiserName, ad.contactInfo, ad.content, ad.placementPreferences,
                                      ad.appearanceDate, ad.size);
      check.None? ==> ad.ValidateDetails() == Pass
    ensures ad.ValidateDetails().Fail? <==>
      CheckCapture(ad.advertiserName, ad.contactInfo, ad.content, ad.placementPreferences,
                   ad.appearanceDate, ad.size) in {Some(AdvertiserName), Some(ContactInfo), Some(Content)}
  {
  }

  /**
   * The effect of one operator call `op` on `ad`: an absent record, or a
   * review of a record without content, is a null-reference failure that
   * changes nothing; otherwise the call succeeds and the record's state
   * becomes what `Workflow.Apply` prescribes (only review reads the
   * content). The archived flag is never touched.
   */
  twostate predicate Stepped(ad: Advertisement?, op: Operation, new r: Outcome<Error>)
    reads ad
  {
    && (ad == null ==> r == Fail(NullReference))
    && (ad != null ==> ad.isArchived == old(ad.isArchived))
    && (ad != null && op == Review && ad.content.None? ==> r == Fail(NullReference) && ad.State() == old(ad.State()))
    && (ad != null && (op != Review || ad.content.Some?) ==>
          r == Pass && ad.State() == Apply(op, ad.content.UnwrapOr(""), old(ad.State())))
  }

  /** The identifiers of `ads`, in list order. */
  function Ids(ads: seq<Advertisement>): (ids: seq<string>)
    ensures |ids| == |ads| && forall i :: 0 <= i < |ads| ==> ids[i] == ads[i].advertId
  {
    seq(|ads|, i requires 0 <= i < |ads| => ads[i].advertId)
  }

  class MarketingStaff {
    var advertisements: seq<Advertisement>

    constructor ()
      ensures advertisements == []
    {
      advertisements := [];
    }

    /** Every record carries the identifier "A%03d" of its 1-based position. */
    ghost predicate SequentialIds()
      reads this
    {
      Sequential(Ids(advertisements))
    }

    /**
     * What capture does: an incomplete record is refused, then a record
     * whose fresh identifier is already taken is refused, and in both cases
     * the list is left alone; otherwise exactly one new record, numbered
     * after the current list size and holding the raw inputs, is appended.
     */
    twostate predicate CaptureEffect(advertiserName: Option<string>, contactInfo: Option<string>, content: Option<string>,
                                     placementPreferences: Option<string>, appearanceDate: Option<Date>,
                                     size: Option<string>, new r: Outcome<Error>)
      reads this, advertisements
    {
      var before := old(advertisements);
      var id := FormatId(|before| + 1);
      var complete := Present(advertiserName) && Present(contactInfo) && Present(content);
      && (!complete ==> r == Fail(IncompleteDetails) && advertisements == before)
      && (complete && id in Ids(before) ==> r == Fail(DuplicateId) && advertisements == before)
      && (complete && id !in Ids(before) ==>
            && r == Pass
            && |advertisements| == |before| + 1
            && advertisements[..|before|] == before
            && var ad := advertisements[|before|];
            && fresh(ad)
            && ad.IsNew(id, advertiserName, contactInfo, content, placementPreferences, appearanceDate, size))
    }

    method CaptureAdvertisementDetails(advertiserName: Option<string>, contactInfo: Option<string>, content: Option<string>,
                                       placementPreferences: Option<string>, appearanceDate: Option<Date>,
                                       size: Option<string>) returns (r: Outcome<Error>)
      modifies this
      ensures CaptureEffect(advertiserName, contactInfo, content, placementPreferences, appearanceDate, size, r)
      ensures old(SequentialIds()) ==> SequentialIds() && r != Fail(DuplicateId)
    {
      ghost var before := advertisements;
      ghost var sequential := SequentialIds();
      var advertId := GenerateAdvertId();
      assert sequential ==> advertId !in Ids(before);
      var ad := new Advertisement(advertId, advertiserName, contactInfo, content, placementPreferences, appearanceDate, size);
      r := ad.ValidateDetails();
      if r.Fail? {
        return;
      }
      r := AddAdvertisement(ad);
      if r.Fail? {
        return;
      }
      assert advertisements == before + [ad];
      assert Ids(advertisements) == Ids(before) + [advertId];
      if sequential {
        SequentialAppend(Ids(before));
      }
    }

    /** The next identifier: "A%03d" of the list size plus one. */
    method GenerateAdvertId() returns (id: string)
      ensures id == FormatId(|advertisements| + 1)
      ensures SequentialIds() ==> id !in Ids(advertisements)
    {
      if SequentialIds() {
        SequentialIdsDistinct(Ids(advertisements));
      }
      id := FormatId(|advertisements| + 1);
    }

    /** Appends `ad` unless a listed record already has its identifier, in which case the list is unchanged. */
    method AddAdvertisement(ad: Advertisement) returns (r: Outcome<Error>)
      modifies this
      ensures r.Fail? <==> ad.advertId in Ids(old(advertisements))
      ensures r.Fail? ==> r.error == DuplicateId && advertisements == old(advertisements)
      ensures r.Pass? ==> advertisements == old(advertisements) + [ad]
    {
      var i := 0;
      while i < |advertisements|
        invariant 0 <= i <= |advertisements|
        invariant ad.advertId !in Ids(advertisements[..i])
      {
        assert Ids(advertisements[..i + 1]) == Ids(advertisements[..i]) + [advertisements[i].advertId];
        if advertisements[i].advertId == ad.advertId {
          return Fail(DuplicateId);
        }
        i := i + 1;
      }
      assert advertisements[..i] == advertisements;
      advertisements := advertisements + [ad];
      r := Pass;
    }

    /**
     * Assesses the record, then raises a mismatch if it still requires a
     * suitability assessment under another status; the second step can
     * never fire, so the effect is exactly the assessment's.
     */
    method ReviewAdvertisementSuitability(ad: Advertisement?) returns (r: Outcome<Error>)
      modifies ad
      ensures Stepped(ad, Review, r)
      ensures r != Fail(SuitabilityMismatch)
    {
      r := AssessSuitability(ad);
      if r.Fail? {
        return;
      }
      var status := ad.reviewStatus;
      if ad.RequiresSuitability() && StatusName(status) != PendingSuitability {
        r := Fail(SuitabilityMismatch);
      }
    }

    method ApproveAdvertisement(ad: Advertisement?) returns (r: Outcome<Error>)
      modifies ad
      ensures Stepped(ad, Approval, r)
    {
      if ad == null {
        return Fail(NullReference);
      }
      if ad.reviewStatus == Approved {
        if !ad.isPaid {
          ad.SetReviewStatus(NotPaid);
        }
      }
      r := Pass;
    }
  }

  /** The index of the first record of `ads` without a date, or `|ads|` when all are dated. */
  function FirstUndated(ads: seq<Advertisement>): (n: nat)
    ensures n <= |ads|
    ensures forall k :: 0 <= k < n ==> ads[k].appearanceDate.Some?
    ensures n < |ads| ==> ads[n].appearanceDate.None?
    decreases |ads|
  {
    if ads == [] then 0
    else if ads[0].appearanceDate.None? then 0
    else 1 + FirstUndated(ads[1..])
  }

  /**
   * ArchiveManager.archiveUnusedAdvertisements: archives, in order, every
   * record dated before the cutoff, up to the first undated record, where
   * it stops with a null-reference failure. Records after that point are
   * untouched, and no record's workflow state changes.
   */
  method ArchiveUnusedAdvertisements(ads: seq<Advertisement>, sixMonthsAgo: Date) returns (r: Outcome<Error>)
    modifies ads
    ensures r == if FirstUndated(ads) < |ads| then Fail(NullReference) else Pass
    ensures forall a :: a in ads ==>
      a.isArchived == (old(a.isArchived) || (a in ads[..FirstUndated(ads)] && Dated(a, sixMonthsAgo)))
    ensures forall a :: a in ads ==> a.State() == old(a.State())
  {
    var i := 0;
    while i < |ads|
      invariant 0 <= i <= |ads|
      invariant forall k :: 0 <= k < i ==> ads[k].appearanceDate.Some?
      invariant forall a :: a in ads ==> a.isArchived == (old(a.isArchived) || (a in ads[..i] && Dated(a, sixMonthsAgo)))
      invariant forall a :: a in ads ==> a.State() == old(a.State())
    {
      var ad := ads[i];
      assert ads[..i + 1] == ads[..i] + [ad];
      r := ad.ArchiveIfUnused(sixMonthsAgo);
      if r.Fail? {
        assert FirstUndated(ads) == i;
        return;
      }
      i := i + 1;
    }
    assert FirstUndated(ads) == |ads|;
    r := Pass;
  }

  /** ReviewProcess.assessSuitability: a record without content cannot be assessed. */
  method AssessSuitability(ad: Advertisement?) returns (r: Outcome<Error>)
    modifies ad
    ensures Stepped(ad, Review, r)
  {
    if ad == null || ad.content.None? {
      return Fail(NullReference);
    }
    if Contains(ad.content.value, Inappropriate) {
      ad.SetReviewStatus(Rejected);
    } else {
      ad.SetReviewStatus(Approved);
    }
    r := Pass;
  }

  /** PaymentProcessor.confirmPayment: marks the record paid, then applies the publication guard, which therefore passes. */
  method ConfirmPayment(ad: Advertisement?) returns (r: Outcome<Error>)
    modifies ad
    ensures Stepped(ad, Pay, r)
  {
    if ad == null {
      return Fail(NullReference);
    }
    ad.SetPaid(true);
    r := ad.EnsurePaidBeforePublication();
  }

  /** ProcessingCenter.receiveAdvertisement. */
  method ReceiveAdvertisement(ad: Advertisement?) returns (r: Outcome<Error>)
    modifies ad
    ensures Stepped(ad, Forward, r)
  {
    if ad == null {
      return Fail(NullReference);
    }
    if ad.reviewStatus == Approved && ad.isPaid {
      ad.SetProcessed(true);
    }
    r := Pass;
  }
}
