/**
 * The advertisement record and the components that act on it in place:
 * the marketing-staff registry (validated capture, identifiers, approval,
 * lookup by status), the archive, and the stateless review, payment and
 * processing operators, which become module-level methods here.
 */
module Advertising {
  import opened Text
  import opened Workflow

  class Advertisement {
    const advertId: string
    const advertiserName: string
    const contactInfo: string
    const content: string
    const placementPreferences: string
    const appearanceDate: Date
    const size: string
    var reviewStatus: ReviewStatus
    var isPaid: bool
    var isProcessed: bool

    /** A new record is Pending, unpaid and unprocessed. */
    constructor (advertId: string, advertiserName: string, contactInfo: string, content: string,
                 placementPreferences: string, appearanceDate: Date, size: string)
      ensures IsNew(advertId, advertiserName, contactInfo, content, placementPreferences, appearanceDate, size)
    {
      this.advertId := advertId;
      this.advertiserName := advertiserName;
      this.contactInfo := contactInfo;
      this.content := content;
      this.placementPreferences := placementPreferences;
      this.appearanceDate := appearanceDate;
      this.size := size;
      reviewStatus := Pending;
      isPaid := false;
      isProcessed := false;
    }

    /** The record holds exactly these inputs and is Pending, unpaid and unprocessed. */
    predicate IsNew(advertId: string, advertiserName: string, contactInfo: string, content: string,
                    placementPreferences: string, appearanceDate: Date, size: string)
      reads this
    {
      && this.advertId == advertId && this.advertiserName == advertiserName
      && this.contactInfo == contactInfo && this.content == content
      && this.placementPreferences == placementPreferences
      && this.appearanceDate == appearanceDate && this.size == size
      && State() == Submitted
    }

    /** The fields the operators change, as a value. */
    function State(): Lifecycle
      reads this
    {
      Lifecycle(reviewStatus, isPaid, isProcessed)
    }

    method SetReviewStatus(status: ReviewStatus)
      modifies this
      ensures State() == old(State()).(status := status)
    {
      reviewStatus := status;
    }

    method SetPaid(paid: bool)
      modifies this
      ensures State() == old(State()).(isPaid := paid)
    {
      isPaid := paid;
    }

    method SetProcessed(processed: bool)
      modifies this
      ensures State() == old(State()).(isProcessed := processed)
    {
      isProcessed := processed;
    }
  }

  /**
   * The effect of one operator call `op` on `ad`: an absent record is a
   * null-reference failure; otherwise the call succeeds and the record's
   * state becomes what `Workflow.Apply` prescribes.
   */
  twostate predicate Stepped(ad: Advertisement?, op: Operation, new r: Outcome<Error>)
    reads ad
  {
    && (ad == null ==> r == Fail(NullReference))
    && (ad != null ==> r == Pass && ad.State() == Apply(op, ad.content, old(ad.State())))
  }

  /** The identifiers of `ads`, in list order. */
  function Ids(ads: seq<Advertisement>): (ids: seq<string>)
    ensures |ids| == |ads| && forall i :: 0 <= i < |ads| ==> ids[i] == ads[i].advertId
  {
    seq(|ads|, i requires 0 <= i < |ads| => ads[i].advertId)
  }

  /** The records of `ads` whose status is stored as `status`, in list order. */
  function WithStatus(ads: seq<Advertisement>, status: string): (r: seq<Advertisement>)
    reads ads
    ensures |r| <= |ads|
    ensures forall a :: a in r ==> a in ads && StatusName(a.reviewStatus) == status
    ensures forall a :: a in ads && StatusName(a.reviewStatus) == status ==> a in r
    decreases |ads|
  {
    if ads == [] then []
    else
      var last := ads[|ads| - 1];
      assert ads == ads[..|ads| - 1] + [last];
      WithStatus(ads[..|ads| - 1], status) + (if StatusName(last.reviewStatus) == status then [last] else [])
  }

  class MarketingStaff {
    var advertisements: seq<Advertisement>

    constructor ()
      ensures advertisements == []
    {
      advertisements := [];
    }

    /** Every record carries the identifier "A%03d" of its 1-based position. */
    ghost predicate SequentialIds()
      reads this
    {
      Sequential(Ids(advertisements))
    }

    /**
     * What capture does: on invalid input it fails naming the first bad
     * field and leaves the list alone; otherwise it appends exactly one new
     * record, numbered after the current list size, holding the inputs, in
     * the Submitted state.
     */
    twostate predicate CaptureEffect(advertiserName: Option<string>, contactInfo: Option<string>, content: Option<string>,
                                     placementPreferences: Option<string>, appearanceDate: Option<Date>,
                                     size: Option<string>, new r: Outcome<Error>)
      reads this, advertisements
    {
      var check := CheckCapture(advertiserName, contactInfo, content, placementPreferences, appearanceDate, size);
      var before := old(advertisements);
      && (check.Some? ==> r == Fail(InvalidArgument(check.value)) && advertisements == before)
      && (check.None? ==>
            && r == Pass
            && |advertisements| == |before| + 1
            && advertisements[..|before|] == before
            && var ad := advertisements[|before|];
            && fresh(ad)
            && ad.IsNew(FormatId(|before| + 1), advertiserName.value, contactInfo.value, content.value,
                        placementPreferences.value, appearanceDate.value, size.value))
    }

    method CaptureAdvertisementDetails(advertiserName: Option<string>, contactInfo: Option<string>, content: Option<string>,
                                       placementPreferences: Option<string>, appearanceDate: Option<Date>,
                                       size: Option<string>) returns (r: Outcome<Error>)
      modifies this
      ensures CaptureEffect(advertiserName, contactInfo, content, placementPreferences, appearanceDate, size, r)
      ensures old(SequentialIds()) ==> SequentialIds()
    {
      var check := CheckCapture(advertiserName, contactInfo, content, placementPreferences, appearanceDate, size);
      if check.Some? {
        return Fail(InvalidArgument(check.value));
      }
      var advertId := GenerateAdvertId();
      var ad := new Advertisement(advertId, advertiserName.value, contactInfo.value, content.value,
                                  placementPreferences.value, appearanceDate.value, size.value);
      ghost var before := advertisements;
      advertisements := advertisements + [ad];
      assert Ids(advertisements) == Ids(before) + [advertId];
      if old(SequentialIds()) {
        SequentialAppend(Ids(before));
      }
      r := Pass;
    }

    /** The next identifier: "A%03d" of the list size plus one. */
    method GenerateAdvertId() returns (id: string)
      ensures id == FormatId(|advertisements| + 1)
      ensures SequentialIds() ==> id !in Ids(advertisements)
    {
      if SequentialIds() {
        SequentialIdsDistinct(Ids(advertisements));
      }
      id := FormatId(|advertisements| + 1);
    }

    method ReviewAdvertisementSuitability(ad: Advertisement?) returns (r: Outcome<Error>)
      modifies ad
      ensures Stepped(ad, Review, r)
    {
      r := AssessSuitability(ad);
    }

    method ApproveAdvertisement(ad: Advertisement?) returns (r: Outcome<Error>)
      modifies ad
      ensures Stepped(ad, Approval, r)
    {
      if ad == null {
        return Fail(NullReference);
      }
      if ad.reviewStatus == Approved {
        if !ad.isPaid {
          ad.SetReviewStatus(NotPaid);
        }
      }
      r := Pass;
    }

    /** A `None` status stands for Java's `null`, which equals no stored status. */
    method GetAdvertisementsByStatus(status: Option<string>) returns (filtered: seq<Advertisement>)
      ensures status.None? ==> filtered == []
      ensures status.Some? ==> filtered == WithStatus(advertisements, status.value)
    {
      filtered := [];
      if status.None? {
        return;
      }
      var i := 0;
      while i < |advertisements|
        invariant 0 <= i <= |advertisements|
        invariant filtered == WithStatus(advertisements[..i], status.value)
      {
        var ad := advertisements[i];
        assert advertisements[..i + 1][..i] == advertisements[..i];
        if StatusName(ad.reviewStatus) == status.value {
          filtered := filtered + [ad];
        }
        i := i + 1;
      }
      assert advertisements[..i] == advertisements;
    }
  }

  /** Records created only by capture get distinct identifiers, "A001" first. */
  lemma CapturedIdsDistinct(staff: MarketingStaff)
    requires staff.SequentialIds()
    ensures forall i, j :: 0 <= i < j < |staff.advertisements| ==>
      staff.advertisements[i].advertId != staff.advertisements[j].advertId
    ensures |staff.advertisements| > 0 ==> staff.advertisements[0].advertId == "A001"
  {
    var ids := Ids(staff.advertisements);
    SequentialIdsDistinct(ids);
    assert forall i :: 0 <= i < |ids| ==> ids[i] == staff.advertisements[i].advertId;
    if |ids| > 0 {
      assert Digits(1) == "1";
      assert ids[0] == FormatId(1) == "A001";
    }
  }

  /** A record qualifies for archiving: never processed and dated strictly before the cutoff. */
  predicate Unused(ad: Advertisement, sixMonthsAgo: Date)
    reads ad
  {
    !ad.isProcessed && ad.appearanceDate < sixMonthsAgo
  }

  /** The archive after scanning `ads` in order, appending each qualifying record not yet in it. */
  function Archive(archive: seq<Advertisement>, ads: seq<Advertisement>, sixMonthsAgo: Date): seq<Advertisement>
    reads ads
    decreases |ads|
  {
    if ads == [] then archive
    else
      var before := Archive(archive, ads[..|ads| - 1], sixMonthsAgo);
      var ad := ads[|ads| - 1];
      if Unused(ad, sixMonthsAgo) && ad !in before then before + [ad] else before
  }

  predicate NoDuplicates(s: seq<Advertisement>)
  {
    forall i, j :: 0 <= i < j < |s| ==> s[i] != s[j]
  }

  /** Archiving only appends: the old archive is a prefix of the new one. */
  lemma {:induction false} ArchiveExtends(archive: seq<Advertisement>, ads: seq<Advertisement>, sixMonthsAgo: Date)
    ensures |archive| <= |Archive(archive, ads, sixMonthsAgo)|
    ensures Archive(archive, ads, sixMonthsAgo)[..|archive|] == archive
    decreases |ads|
  {
    if ads != [] {
      ArchiveExtends(archive, ads[..|ads| - 1], sixMonthsAgo);
    }
  }

  /** A record is in the new archive exactly when it was archived before or it qualifies and was scanned. */
  lemma {:induction false} ArchiveMembers(archive: seq<Advertisement>, ads: seq<Advertisement>, sixMonthsAgo: Date)
    ensures forall a :: a in Archive(archive, ads, sixMonthsAgo) ==>
      a in archive || (a in ads && Unused(a, sixMonthsAgo))
    ensures forall a :: a in archive || (a in ads && Unused(a, sixMonthsAgo)) ==>
      a in Archive(archive, ads, sixMonthsAgo)
    decreases |ads|
  {
    if ads != [] {
      ArchiveMembers(archive, ads[..|ads| - 1], sixMonthsAgo);
      assert ads == ads[..|ads| - 1] + [ads[|ads| - 1]];
    }
  }

  /** Archiving never puts a record into the archive twice. */
  lemma {:induction false} ArchiveNoDuplicates(archive: seq<Advertisement>, ads: seq<Advertisement>, sixMonthsAgo: Date)
    requires NoDuplicates(archive)
    ensures NoDuplicates(Archive(archive, ads, sixMonthsAgo))
    decreases |ads|
  {
    if ads != [] {
      ArchiveNoDuplicates(archive, ads[..|ads| - 1], sixMonthsAgo);
    }
  }

  class ArchiveManager {
    var archivedAdvertisements: seq<Advertisement>

    constructor ()
      ensures archivedAdvertisements == []
    {
      archivedAdvertisements := [];
    }

    /** `sixMonthsAgo` is the clock reading the Java code takes (today minus six months). */
    method ArchiveUnusedAdvertisements(ads: seq<Advertisement>, sixMonthsAgo: Date)
      modifies this
      ensures archivedAdvertisements == Archive(old(archivedAdvertisements), ads, sixMonthsAgo)
    {
      var i := 0;
      while i < |ads|
        invariant 0 <= i <= |ads|
        invariant archivedAdvertisements == Archive(old(archivedAdvertisements), ads[..i], sixMonthsAgo)
      {
        var ad := ads[i];
        assert ads[..i + 1][..i] == ads[..i];
        if !ad.isProcessed && ad.appearanceDate < sixMonthsAgo && ad !in archivedAdvertisements {
          archivedAdvertisements := archivedAdvertisements + [ad];
        }
        i := i + 1;
      }
      assert ads[..i] == ads;
    }

    method GetArchivedAdvertisements() returns (archived: seq<Advertisement>)
      ensures archived == archivedAdvertisements
    {
      archived := archivedAdvertisements;
    }
  }

  /** ReviewProcess.assessSuitability. */
  method AssessSuitability(ad: Advertisement?) returns (r: Outcome<Error>)
    modifies ad
    ensures Stepped(ad, Review, r)
  {
    if ad == null {
      return Fail(NullReference);
    }
    if Contains(ad.content, Inappropriate) {
      ad.SetReviewStatus(Rejected);
    } else {
      ad.SetReviewStatus(Approved);
    }
    r := Pass;
  }

  /** PaymentProcessor.confirmPayment. */
  method ConfirmPayment(ad: Advertisement?) returns (r: Outcome<Error>)
    modifies ad
    ensures Stepped(ad, Pay, r)
  {
    if ad == null {
      return Fail(NullReference);
    }
    ad.SetPaid(true);
    r := Pass;
  }

  /** PaymentProcessor.checkPaymentStatus: reports whether the record is paid. */
  function CheckPaymentStatus(ad: Advertisement): (paid: bool)
    reads ad
    ensures paid <==> ad.State().isPaid
  {
    ad.isPaid
  }

  /** ProcessingCenter.receiveAdvertisement. */
  method ReceiveAdvertisement(ad: Advertisement?) returns (r: Outcome<Error>)
    modifies ad
    ensures Stepped(ad, Forward, r)
  {
    if ad == null {
      return Fail(NullReference);
    }
    if ad.reviewStatus == Approved && ad.isPaid {
      ad.SetProcessed(true);
    }
    r := Pass;
  }
}
