/**
 * The transfer-progress callback: one progress bar shows either the objects
 * received or the deltas resolved, switching once all objects are in.
 */
module Progress {
  import opened Wrappers

  /** The counters git reports during a clone (usize, widened to u64 losslessly). */
  datatype Stats = Stats(receivedObjects: nat, totalObjects: nat, indexedDeltas: nat, totalDeltas: nat)

  datatype Phase = ReceivingObjects | ResolvingDeltas

  /** The bar as the callback leaves it: message, length and position. */
  datatype Bar = Bar(message: string, length: nat, position: nat)

  function Label(phase: Phase): string {
    match phase
    case ReceivingObjects => "Receiving objects"
    case ResolvingDeltas => "Resolving deltas"
  }

  /** Reads the phase back from a bar message; the inverse of `Label`. */
  function PhaseOfLabel(message: string): (phase: Option<Phase>)
    ensures phase.Some? ==> Label(phase.value) == message
  {
    if message == Label(ReceivingObjects) then Some(ReceivingObjects)
    else if message == Label(ResolvingDeltas) then Some(ResolvingDeltas)
    else None
  }

  /** The labels are distinct, so the phase can be read back from the bar. */
  lemma LabelRoundTrip(phase: Phase)
    ensures PhaseOfLabel(Label(phase)) == Some(phase)
  {
  }

  /** The phase is receiving exactly while objects are still outstanding. */
  function PhaseOf(stats: Stats): (phase: Phase)
    ensures phase == ReceivingObjects <==> stats.receivedObjects < stats.totalObjects
  {
    if stats.receivedObjects < stats.totalObjects then ReceivingObjects else ResolvingDeltas
  }

  /**
   * The callback: the bar shows the current phase with that phase's total as
   * its length and its progress as its position, and the transfer always
   * continues.
   */
  function TransferProgress(stats: Stats): (r: (Bar, bool))
    ensures r.1
    ensures PhaseOfLabel(r.0.message) == Some(PhaseOf(stats))
    ensures PhaseOf(stats) == ReceivingObjects ==>
      r.0.length == stats.totalObjects && r.0.position == stats.receivedObjects
    ensures PhaseOf(stats) == ResolvingDeltas ==>
      r.0.length == stats.totalDeltas && r.0.position == stats.indexedDeltas
  {
    LabelRoundTrip(PhaseOf(stats));
    if stats.receivedObjects < stats.totalObjects then
      (Bar(Label(ReceivingObjects), stats.totalObjects, stats.receivedObjects), true)
    else
      (Bar(Label(ResolvingDeltas), stats.totalDeltas, stats.indexedDeltas), true)
  }

  /** Counters as git keeps them: no counter runs past its total. */
  predicate Consistent(stats: Stats) {
    stats.indexedDeltas <= stats.totalDeltas
  }

  /**
   * The bar never overshoots when the delta counter stays within its total,
   * and while objects are being received it is never full.
   */
  lemma BarWithinLength(stats: Stats)
    requires Consistent(stats)
    ensures TransferProgress(stats).0.position <= TransferProgress(stats).0.length
    ensures PhaseOf(stats) == ReceivingObjects ==> TransferProgress(stats).0.position < TransferProgress(stats).0.length
  {
  }

  /** Successive reports of one transfer: object totals fixed, counts never falling. */
  predicate OneTransfer(reports: seq<Stats>) {
    forall i, j :: 0 <= i < j < |reports| ==>
      reports[i].totalObjects == reports[j].totalObjects
      && reports[i].receivedObjects <= reports[j].receivedObjects
  }

  /**
   * Over one transfer the bar shows receiving first and resolving after, and
   * never switches back.
   */
  lemma PhasesSwitchOnce(reports: seq<Stats>, i: int, j: int)
    requires OneTransfer(reports)
    requires 0 <= i < j < |reports|
    requires PhaseOf(reports[i]) == ResolvingDeltas
    ensures PhaseOf(reports[j]) == ResolvingDeltas
    ensures TransferProgress(reports[j]).0.message == "Resolving deltas"
  {
  }
}
