/**
 * The command layer: each command binds the arguments of one operator call
 * at construction and performs that call when executed; the executor keeps
 * a FIFO queue of commands, runs it in order and then clears it.
 */
module Commands {
  import opened Workflow
  import opened Advertising

  /** One deferred operator call, with the arguments it was built with. */
  datatype Command =
    | CaptureAdvertisementCommand(staff: MarketingStaff, advertiserName: Option<string>, contactInfo: Option<string>,
                                  content: Option<string>, placementPreferences: Option<string>,
                                  appearanceDate: Option<Date>, size: Option<string>)
    | ReviewAdvertisementCommand(staff: MarketingStaff, ad: Advertisement?)
    | ConfirmPaymentCommand(ad: Advertisement?)
    | ApproveAdvertisementCommand(staff: MarketingStaff, ad: Advertisement?)
    | ForwardAdvertisementCommand(ad: Advertisement?)
    | ArchiveAdvertisementCommand(archiveManager: ArchiveManager, advertisements: seq<Advertisement>)
  {
    /** The command calls a record operator (review, payment, approval or forwarding). */
    predicate OnRecord()
    {
      ReviewAdvertisementCommand? || ConfirmPaymentCommand? || ApproveAdvertisementCommand? || ForwardAdvertisementCommand?
    }

    /** The record operator the command calls. */
    function Op(): Operation
      requires OnRecord()
    {
      match this
      case ReviewAdvertisementCommand(_, _) => Review
      case ConfirmPaymentCommand(_) => Pay
      case ApproveAdvertisementCommand(_, _) => Approval
      case ForwardAdvertisementCommand(_) => Forward
    }

    /** The command calls a record operator on the record `a`. */
    predicate Acts(a: Advertisement)
    {
      OnRecord() && ad == a
    }

    /** What executing the command returns: it depends only on the arguments bound at construction. */
    function Expected(): Outcome<Error>
    {
      match this
      case CaptureAdvertisementCommand(_, name, contact, content, placement, date, size) =>
        (match CheckCapture(name, contact, content, placement, date, size)
         case Some(field) => Fail(InvalidArgument(field))
         case None => Pass)
      case ArchiveAdvertisementCommand(_, _) => Pass
      case _ => if ad == null then Fail(NullReference) else Pass
    }

    /** The objects executing the command may change. */
    function Targets(): set<object>
    {
      match this
      case CaptureAdvertisementCommand(staff, _, _, _, _, _, _) => {staff}
      case ArchiveAdvertisementCommand(archiveManager, _) => {archiveManager}
      case _ => if ad == null then {} else {ad}
    }
  }

  /** Runs the one operator call `c` binds; `sixMonthsAgo` is the archive's clock reading. */
  method Execute(c: Command, sixMonthsAgo: Date) returns (r: Outcome<Error>)
    modifies c.Targets()
    ensures r == c.Expected()
    ensures match c
      case CaptureAdvertisementCommand(staff, name, contact, content, placement, date, size) =>
        staff.CaptureEffect(name, contact, content, placement, date, size, r)
      case ReviewAdvertisementCommand(_, ad) => Stepped(ad, Review, r)
      case ConfirmPaymentCommand(ad) => Stepped(ad, Pay, r)
      case ApproveAdvertisementCommand(_, ad) => Stepped(ad, Approval, r)
      case ForwardAdvertisementCommand(ad) => Stepped(ad, Forward, r)
      case ArchiveAdvertisementCommand(manager, ads) =>
        r == Pass && manager.archivedAdvertisements == Archive(old(manager.archivedAdvertisements), ads, sixMonthsAgo)
    ensures forall a: Advertisement :: old(allocated(a)) ==>
      a.State() == if c.Acts(a) then Apply(c.Op(), a.content, old(a.State())) else old(a.State())
  {
    match c
    case CaptureAdvertisementCommand(staff, name, contact, content, placement, date, size) =>
      r := staff.CaptureAdvertisementDetails(name, contact, content, placement, date, size);
    case ReviewAdvertisementCommand(staff, ad) =>
      r := staff.ReviewAdvertisementSuitability(ad);
    case ConfirmPaymentCommand(ad) =>
      r := Advertising.ConfirmPayment(ad);
    case ApproveAdvertisementCommand(staff, ad) =>
      r := staff.ApproveAdvertisement(ad);
    case ForwardAdvertisementCommand(ad) =>
      r := ReceiveAdvertisement(ad);
    case ArchiveAdvertisementCommand(manager, ads) =>
      manager.ArchiveUnusedAdvertisements(ads, sixMonthsAgo);
      r := Pass;
  }

  /** Everything the commands of `q` may change. */
  ghost function QueueTargets(q: seq<Command>): set<object>
  {
    set i, o | 0 <= i < |q| && o in q[i].Targets() :: o
  }

  /** The records the commands of `q` operate on. */
  ghost function Records(q: seq<Command>): set<Advertisement>
  {
    set i | 0 <= i < |q| && q[i].OnRecord() && q[i].ad != null :: q[i].ad
  }

  /** The operator calls the commands of `q` make on the record `a`, in queue order. */
  function OpsOn(q: seq<Command>, a: Advertisement): seq<Operation>
    decreases |q|
  {
    if q == [] then []
    else
      var c := q[|q| - 1];
      OpsOn(q[..|q| - 1], a) + (if c.Acts(a) then [c.Op()] else [])
  }

  /** Extending the queue by one command extends each record's calls by that command's call, if it names the record. */
  lemma RunOpsOnStep(q: seq<Command>, i: nat, a: Advertisement, s: Lifecycle)
    requires i < |q|
    ensures Run(OpsOn(q[..i + 1], a), a.content, s) ==
      if q[i].Acts(a) then Apply(q[i].Op(), a.content, Run(OpsOn(q[..i], a), a.content, s))
      else Run(OpsOn(q[..i], a), a.content, s)
  {
    assert q[..i + 1][..i] == q[..i];
    var done := OpsOn(q[..i], a);
    if q[i].Acts(a) {
      assert OpsOn(q[..i + 1], a) == done + [q[i].Op()];
      RunAppend(done, [q[i].Op()], a.content, s);
      assert [q[i].Op()][1..] == [];
    } else {
      assert OpsOn(q[..i + 1], a) == done;
    }
  }

  /** The index of the first command of `q` that fails, or `|q|` when none does. */
  function FirstFailure(q: seq<Command>): (n: nat)
    ensures n <= |q|
    ensures forall k :: 0 <= k < n ==> q[k].Expected() == Pass
    ensures n < |q| ==> q[n].Expected().Fail?
    decreases |q|
  {
    if q == [] then 0
    else if q[0].Expected().Fail? then 0
    else 1 + FirstFailure(q[1..])
  }

  /** How many commands of `q` run: up to and including the first failing one. */
  function Ran(q: seq<Command>): (n: nat)
    ensures n <= |q|
  {
    if FirstFailure(q) < |q| then FirstFailure(q) + 1 else |q|
  }

  /** What running `q` returns: the first failure, or success when every command succeeds. */
  function QueueOutcome(q: seq<Command>): Outcome<Error>
  {
    if FirstFailure(q) < |q| then q[FirstFailure(q)].Expected() else Pass
  }

  /**
   * A queue fails exactly when one of its commands would fail, and then
   * with the error of the last command that ran, which is the first failing
   * one; a queue that succeeds ran every command.
   */
  lemma QueueOutcomeFirstFailure(q: seq<Command>)
    ensures QueueOutcome(q).Fail? <==> exists k :: 0 <= k < |q| && q[k].Expected().Fail?
    ensures QueueOutcome(q).Fail? ==> 0 < Ran(q) && QueueOutcome(q) == q[Ran(q) - 1].Expected()
    ensures QueueOutcome(q).Pass? ==> Ran(q) == |q|
  {
    var n := FirstFailure(q);
    if k :| 0 <= k < |q| && q[k].Expected().Fail? {
      assert n <= k;
    }
  }

  /** One executed command and what it returned. */
  datatype Execution = Execution(command: Command, outcome: Outcome<Error>)

  /** Each command of `q`, in order, paired with what executing it returns. */
  ghost function Trace(q: seq<Command>): seq<Execution>
    decreases |q|
  {
    if q == [] then [] else Trace(q[..|q| - 1]) + [Execution(q[|q| - 1], q[|q| - 1].Expected())]
  }

  class CommandExecutor {
    var commandQueue: seq<Command>
    /** The commands executed so far, with their outcomes (bookkeeping for the specification). */
    ghost var log: seq<Execution>

    constructor ()
      ensures commandQueue == [] && log == []
    {
      commandQueue := [];
      log := [];
    }

    method AddCommand(command: Command)
      modifies this
      ensures commandQueue == old(commandQueue) + [command]
      ensures log == old(log)
    {
      commandQueue := commandQueue + [command];
    }

    /**
     * Runs the queue front to back. A failing command's error reaches the
     * caller at once and the queue is left as it was; otherwise the queue
     * is cleared. Each record the queue names ends in the state the
     * operator calls aimed at it produce, applied in queue order. The
     * effect on registries and archives is stated per command by `Execute`
     * only, and `log` is bookkeeping this method writes itself: neither
     * pins down how often a capture or archive command runs.
     */
    method ExecuteCommands(sixMonthsAgo: Date) returns (r: Outcome<Error>)
      modifies this, QueueTargets(commandQueue)
      ensures r == QueueOutcome(old(commandQueue))
      ensures r.Pass? ==> commandQueue == []
      ensures r.Fail? ==> commandQueue == old(commandQueue)
      ensures log == old(log) + Trace(old(commandQueue)[..Ran(old(commandQueue))])
      ensures forall a :: a in Records(old(commandQueue)) ==>
        a.State() == Run(OpsOn(old(commandQueue)[..Ran(old(commandQueue))], a), a.content, old(a.State()))
    {
      ghost var q := commandQueue;
      ghost var log0 := log;
      var i := 0;
      while i < |commandQueue|
        invariant 0 <= i <= |commandQueue| && commandQueue == q
        invariant forall k :: 0 <= k < i ==> q[k].Expected() == Pass
        invariant log == log0 + Trace(q[..i])
        invariant forall a :: a in Records(q) ==> a.State() == Run(OpsOn(q[..i], a), a.content, old(a.State()))
      {
        var c := commandQueue[i];
        assert c.Targets() <= QueueTargets(q);
        r := Execute(c, sixMonthsAgo);
        assert q[..i + 1][..i] == q[..i];
        log := log + [Execution(c, r)];
        forall a | a in Records(q)
          ensures a.State() == Run(OpsOn(q[..i + 1], a), a.content, old(a.State()))
        {
          RunOpsOnStep(q, i, a, old(a.State()));
        }
        if r.Fail? {
          assert FirstFailure(q) == i;
          return;
        }
        i := i + 1;
      }
      assert FirstFailure(q) == |q|;
      assert q[..i] == q;
      commandQueue := [];
      r := Pass;
    }

    method GetCommandQueue() returns (queue: seq<Command>)
      ensures queue == commandQueue
    {
      queue := commandQueue;
    }

    method SetCommandQueue(queue: seq<Command>)
      modifies this
      ensures commandQueue == queue && log == old(log)
    {
      commandQueue := queue;
    }
  }
}
