/**
 * The value-level core of the advertisement lifecycle: the review status,
 * the mutable part of a record (status, paid flag, processed flag), the
 * guarded transition each operator applies to it, and the validation
 * performed when a record is captured.
 *
 * The classes in Advertising, Commands and CheckedAdvertising change
 * records in place; every one of their operator methods is specified by
 * the transition function defined here, so the properties proved below
 * carry over to them.
 */
module Workflow {
  import opened Text

  datatype Option<T> = None | Some(value: T)
  {
    /** The value, or `default` when there is none. */
    function UnwrapOr(default: T): (v: T)
      ensures Some? ==> v == value
      ensures None? ==> v == default
    {
      if Some? then value else default
    }
  }

  /** Success, or the exception the Java code would throw. */
  datatype Outcome<E> = Pass | Fail(error: E)

  /** The input fields checked at capture, in the order they are checked. */
  datatype Field =
    | AdvertiserName
    | ContactInfo
    | Content
    | PlacementPreferences
    | AppearanceDate
    | Size

  datatype Error =
    | InvalidArgument(field: Field) // IllegalArgumentException naming the field (capture)
    | IncompleteDetails             // IllegalArgumentException from the checked variant's validateDetails
    | NullReference                 // dereferencing an absent (null) record or field
    | DuplicateId                   // IllegalStateException from the checked variant's addAdvertisement
    | PaymentRequired               // IllegalStateException from ensurePaidBeforePublication
    | SuitabilityMismatch           // IllegalStateException from the checked variant's review

  /** A calendar date as a day number; only the order of dates matters. */
  type Date = int

  datatype ReviewStatus = Pending | Approved | Rejected | NotPaid

  /** The string the Java code stores in `reviewStatus`. */
  function StatusName(st: ReviewStatus): string
  {
    match st
    case Pending => "Pending"
    case Approved => "Approved"
    case Rejected => "Rejected"
    case NotPaid => "Not Paid"
  }

  /** Different statuses are stored as different strings, so comparing names compares statuses. */
  lemma StatusNameInjective(a: ReviewStatus, b: ReviewStatus)
    ensures StatusName(a) == StatusName(b) <==> a == b
  {
  }

  /** The word whose presence in the content makes review reject a record. */
  const Inappropriate := "inappropriate"

  /** The longest `size` string capture accepts. */
  const MaxSizeLength := 1000

  /** The part of a record that the operators change. */
  datatype Lifecycle = Lifecycle(status: ReviewStatus, isPaid: bool, isProcessed: bool)

  /** The state every record is constructed in. */
  const Submitted := Lifecycle(Pending, false, false)

  /** One operator call on a record. */
  datatype Operation =
    | Review   // ReviewProcess.assessSuitability
    | Pay      // PaymentProcessor.confirmPayment
    | Approval // MarketingStaff.approveAdvertisement
    | Forward  // ProcessingCenter.receiveAdvertisement

  /** Review: rejected exactly when the content mentions the word, approved otherwise. */
  function Assess(content: string, s: Lifecycle): (r: Lifecycle)
    ensures r.status == Rejected <==> Contains(content, Inappropriate)
    ensures r.status == Approved <==> !Contains(content, Inappropriate)
    ensures r.isPaid == s.isPaid && r.isProcessed == s.isProcessed
  {
    s.(status := if Contains(content, Inappropriate) then Rejected else Approved)
  }

  /** Payment: the record is paid afterwards, and nothing else changes. */
  function ConfirmPayment(s: Lifecycle): (r: Lifecycle)
    ensures r.isPaid
    ensures r.status == s.status && r.isProcessed == s.isProcessed
  {
    s.(isPaid := true)
  }

  /** Approval: an approved but unpaid record falls to NotPaid; every other record is left as it is. */
  function Approve(s: Lifecycle): (r: Lifecycle)
    ensures r.isPaid == s.isPaid && r.isProcessed == s.isProcessed
    ensures r.status != s.status <==> s.status == Approved && !s.isPaid
    ensures r.status != s.status ==> r.status == NotPaid
  {
    if s.status == Approved && !s.isPaid then s.(status := NotPaid) else s
  }

  /** Forwarding: the record becomes processed exactly when it is approved and paid. */
  function Receive(s: Lifecycle): (r: Lifecycle)
    ensures r.isProcessed <==> s.isProcessed || (s.status == Approved && s.isPaid)
    ensures r.status == s.status && r.isPaid == s.isPaid
  {
    if s.status == Approved && s.isPaid then s.(isProcessed := true) else s
  }

  /** The effect of one operator call on a record whose (immutable) content is `content`. */
  function Apply(op: Operation, content: string, s: Lifecycle): Lifecycle
  {
    match op
    case Review => Assess(content, s)
    case Pay => ConfirmPayment(s)
    case Approval => Approve(s)
    case Forward => Receive(s)
  }

  /** The effect of a series of operator calls on one record, first call first. */
  function Run(ops: seq<Operation>, content: string, s: Lifecycle): Lifecycle
    decreases |ops|
  {
    if ops == [] then s else Run(ops[1..], content, Apply(ops[0], content, s))
  }

  /** Running `ops` and then `more` is running `ops + more`. */
  lemma {:induction false} RunAppend(ops: seq<Operation>, more: seq<Operation>, content: string, s: Lifecycle)
    ensures Run(ops + more, content, s) == Run(more, content, Run(ops, content, s))
    decreases |ops|
  {
    if ops != [] {
      assert (ops + more)[1..] == ops[1..] + more;
      RunAppend(ops[1..], more, content, Apply(ops[0], content, s));
    } else {
      assert ops + more == more;
    }
  }

  /** Assessing twice gives the same record as assessing once. */
  lemma AssessIdempotent(content: string, s: Lifecycle)
    ensures Assess(content, Assess(content, s)) == Assess(content, s)
  {
  }

  /** Confirming payment twice gives the same record as confirming once. */
  lemma ConfirmPaymentIdempotent(s: Lifecycle)
    ensures ConfirmPayment(ConfirmPayment(s)) == ConfirmPayment(s)
  {
  }

  /** Forwarding twice gives the same record as forwarding once. */
  lemma ReceiveIdempotent(s: Lifecycle)
    ensures Receive(Receive(s)) == Receive(s)
  {
  }

  /**
   * Once approval has marked a record NotPaid, a later payment does not
   * reopen it: the record stays NotPaid through payment, approval and
   * forwarding, and forwarding does not process it.
   */
  lemma NotPaidSurvivesPayment(s: Lifecycle)
    requires s.status == NotPaid
    ensures ConfirmPayment(s).status == NotPaid
    ensures Approve(ConfirmPayment(s)).status == NotPaid
    ensures Receive(Approve(ConfirmPayment(s))).isProcessed == s.isProcessed
  {
  }

  /**
   * Only a new review moves a record out of NotPaid: review ignores the old
   * status, so reviewing a NotPaid record whose content is acceptable makes
   * it Approved again.
   */
  lemma ReviewReopensNotPaid(content: string, s: Lifecycle)
    requires s.status == NotPaid && !Contains(content, Inappropriate)
    ensures Assess(content, s).status == Approved
  {
  }

  /** Only review and approval write the status. */
  lemma StatusWriters(op: Operation, content: string, s: Lifecycle)
    ensures op != Review && op != Approval ==> Apply(op, content, s).status == s.status
  {
  }

  /** No series of operator calls takes back a payment or un-processes a record. */
  lemma {:induction false} FlagsNeverReset(ops: seq<Operation>, content: string, s: Lifecycle)
    ensures s.isPaid ==> Run(ops, content, s).isPaid
    ensures s.isProcessed ==> Run(ops, content, s).isProcessed
    decreases |ops|
  {
    if ops != [] {
      FlagsNeverReset(ops[1..], content, Apply(ops[0], content, s));
    }
  }

  /** A processed record is always a paid one, whatever calls are made on it. */
  lemma {:induction false} ProcessedOnlyIfPaid(ops: seq<Operation>, content: string, s: Lifecycle)
    requires s.isProcessed ==> s.isPaid
    ensures Run(ops, content, s).isProcessed ==> Run(ops, content, s).isPaid
    decreases |ops|
  {
    if ops != [] {
      ProcessedOnlyIfPaid(ops[1..], content, Apply(ops[0], content, s));
    }
  }

  /** Without a review a new record is never approved, so it is never processed. */
  lemma {:induction false} NoReviewNoProcessing(ops: seq<Operation>, content: string, s: Lifecycle)
    requires Review !in ops
    requires s.status == Pending && !s.isProcessed
    ensures Run(ops, content, s).status == Pending
    ensures !Run(ops, content, s).isProcessed
    decreases |ops|
  {
    if ops != [] {
      assert ops[0] != Review;
      assert Review !in ops[1..];
      NoReviewNoProcessing(ops[1..], content, Apply(ops[0], content, s));
    }
  }

  /** The per-record pipeline the workflow runs: review, an optional payment, approval, forwarding. */
  function Pipeline(paid: bool): seq<Operation>
  {
    [Review] + (if paid then [Pay] else []) + [Approval, Forward]
  }

  /**
   * Outcome of the pipeline on a freshly captured record: it ends processed
   * exactly when its content is acceptable and it was paid; otherwise it ends
   * Rejected (unacceptable content, paid or not) or NotPaid (acceptable but
   * unpaid).
   */
  lemma PipelineOutcome(content: string, paid: bool)
    ensures var r := Run(Pipeline(paid), content, Submitted);
      && (r.isProcessed <==> !Contains(content, Inappropriate) && paid)
      && (Contains(content, Inappropriate) ==> r.status == Rejected)
      && (!Contains(content, Inappropriate) && !paid ==> r.status == NotPaid)
      && (!Contains(content, Inappropriate) && paid ==> r.status == Approved)
      && r.isPaid == paid
  {
    var s1 := Assess(content, Submitted);
    var s2 := if paid then ConfirmPayment(s1) else s1;
    if paid {
      RunAppend([Review, Pay], [Approval, Forward], content, Submitted);
      assert Pipeline(paid) == [Review, Pay] + [Approval, Forward];
      assert Run([Review, Pay], content, Submitted) == s2;
    } else {
      RunAppend([Review], [Approval, Forward], content, Submitted);
      assert Pipeline(paid) == [Review] + [Approval, Forward];
      assert Run([Review], content, Submitted) == s2;
    }
    assert Run([Approval, Forward], content, s2) == Receive(Approve(s2));
  }

  /** `s` is present and non-empty (Java: not null and not `isEmpty()`). */
  predicate Present(s: Option<string>)
  {
    s.Some? && |s.value| > 0
  }

  /**
   * The capture checks, in the order the Java code performs them; `None`
   * means all pass, `Some(f)` names the first field that fails.
   */
  function CheckCapture(advertiserName: Option<string>, contactInfo: Option<string>, content: Option<string>,
                        placementPreferences: Option<string>, appearanceDate: Option<Date>, size: Option<string>): (r: Option<Field>)
    ensures r.None? <==>
      Present(advertiserName) && Present(contactInfo) && Present(content) && Present(placementPreferences)
      && appearanceDate.Some? && Present(size) && |size.value| <= MaxSizeLength
    ensures r == Some(AdvertiserName) <==> !Present(advertiserName)
    ensures r == Some(ContactInfo) <==> Present(advertiserName) && !Present(contactInfo)
    ensures r == Some(Content) <==> Present(advertiserName) && Present(contactInfo) && !Present(content)
    ensures r == Some(PlacementPreferences) <==>
      Present(advertiserName) && Present(contactInfo) && Present(content) && !Present(placementPreferences)
    ensures r == Some(AppearanceDate) <==>
      Present(advertiserName) && Present(contactInfo) && Present(content) && Present(placementPreferences)
      && appearanceDate.None?
  {
    if !Present(advertiserName) then Some(AdvertiserName)
    else if !Present(contactInfo) then Some(ContactInfo)
    else if !Present(content) then Some(Content)
    else if !Present(placementPreferences) then Some(PlacementPreferences)
    else if appearanceDate.None? then Some(AppearanceDate)
    else if !Present(size) || |size.value| > MaxSizeLength then Some(Size)
    else None
  }

  /** The size bound is inclusive: 1000 characters pass, 1001 fail. */
  lemma SizeBoundary(size: string)
    requires |size| == MaxSizeLength || |size| == MaxSizeLength + 1
    ensures CheckCapture(Some("n"), Some("c"), Some("x"), Some("p"), Some(0), Some(size)).None?
        <==> |size| == MaxSizeLength
  {
  }
}
