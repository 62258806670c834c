/**
 * The loop over an Xcode project's native targets that the three
 * revisions of the NSE check share: each target contributes some log
 * lines, may be counted as an NSE, may throw, and an application target
 * may set one of the two embedding flags. The revisions differ only in
 * what a target contributes; the fold and its properties are common.
 */
module NseLoop {
  import opened Wrappers
  import opened Arrays
  import opened Xcode

  /** The loop's state: the lines logged so far, the counter and the two flags, and whether an exception ended it. */
  datatype NseScan = NseScan(log: seq<LogEntry>, scan: TargetScan, threw: bool)

  /**
   * What the body of the loop does for one target: the lines it logs,
   * whether it counts the target as an NSE, whether it throws, and which
   * of the two embedding flags it sets.
   */
  datatype TargetOutcome = TargetOutcome(
    lines: seq<LogEntry>,
    counted: bool,
    threw: bool,
    embedsAppExtensions: bool,
    embedsFoundationExtensions: bool)

  /** What an outcome should say about a target's build phases: it sets a flag exactly when it is an application target with the matching phase. */
  predicate PhasesAgree(t: Target, o: TargetOutcome) {
    && (o.embedsAppExtensions <==> IsApplication(t) && HasPhase(t, EmbedAppExtensions))
    && (o.embedsFoundationExtensions <==> IsApplication(t) && !HasPhase(t, EmbedAppExtensions) && HasPhase(t, EmbedFoundationExtensions))
  }

  /** One pass of the loop: the outcome's lines and count, then the embedding flags unless it threw. */
  function Advance(s: NseScan, o: TargetOutcome): NseScan {
    if s.threw then s
    else
      var count := if o.counted then s.scan.extensionCount + 1 else s.scan.extensionCount;
      if o.threw then NseScan(s.log + o.lines, s.scan.(extensionCount := count), true)
      else NseScan(s.log + o.lines, TargetScan(count, s.scan.isEmbedded || o.embedsAppExtensions,
                                                s.scan.isFoundationExtension || o.embedsFoundationExtensions), false)
  }

  /** The state after the first `n` outcomes, or at the exception that ended the loop. */
  function Scanned(outcomes: seq<TargetOutcome>, n: nat): NseScan
    requires n <= |outcomes|
  {
    if n == 0 then NseScan([], TargetScan(0, false, false), false)
    else Advance(Scanned(outcomes, n - 1), outcomes[n - 1])
  }

  /** Once the loop has thrown, later targets change nothing. */
  lemma {:induction false} ThrownStays(outcomes: seq<TargetOutcome>, i: nat, n: nat)
    requires i <= n <= |outcomes|
    requires Scanned(outcomes, i).threw
    ensures Scanned(outcomes, n) == Scanned(outcomes, i)
    decreases n - i
  {
    if i < n {
      ThrownStays(outcomes, i, n - 1);
    }
  }

  /** After `n` outcomes the loop has thrown exactly when one of them throws. */
  lemma {:induction false} ScannedThrows(outcomes: seq<TargetOutcome>, n: nat)
    requires n <= |outcomes|
    ensures Scanned(outcomes, n).threw <==> exists i | 0 <= i < n :: outcomes[i].threw
  {
    if n > 0 {
      ScannedThrows(outcomes, n - 1);
    }
  }

  /** Until the loop throws, each flag is set exactly when some outcome sets it. */
  lemma {:induction false} ScannedFlags(outcomes: seq<TargetOutcome>, n: nat)
    requires n <= |outcomes| && !Scanned(outcomes, n).threw
    ensures Scanned(outcomes, n).scan.isEmbedded <==> exists i | 0 <= i < n :: outcomes[i].embedsAppExtensions
    ensures Scanned(outcomes, n).scan.isFoundationExtension <==> exists i | 0 <= i < n :: outcomes[i].embedsFoundationExtensions
  {
    if n > 0 {
      ScannedFlags(outcomes, n - 1);
    }
  }

  /** Until the loop throws, the counter is the number of targets that `counted` accepts, when it agrees with the outcomes. */
  lemma {:induction false} ScannedCount(targets: seq<Target>, outcomes: seq<TargetOutcome>, counted: Target -> bool, n: nat)
    requires n <= |targets| == |outcomes| && !Scanned(outcomes, n).threw
    requires forall i | 0 <= i < n :: !outcomes[i].threw ==> (outcomes[i].counted <==> counted(targets[i]))
    ensures Scanned(outcomes, n).scan.extensionCount == |Filter(targets[..n], counted)|
  {
    if n == 0 {
      assert targets[..0] == [];
    } else {
      ScannedCount(targets, outcomes, counted, n - 1);
      var t := targets[n - 1];
      assert targets[..n] == targets[..n - 1] + [t];
      FilterAppend(targets[..n - 1], [t], counted);
      assert Filter([t], counted) == if counted(t) then [t] else [];
    }
  }

  /** When the loop does not throw, its count and flags are the ones the targets call for. */
  lemma ScanResult(targets: seq<Target>, outcomes: seq<TargetOutcome>, counted: Target -> bool)
    requires |outcomes| == |targets| && !Scanned(outcomes, |targets|).threw
    requires forall i | 0 <= i < |targets| :: !outcomes[i].threw ==> (outcomes[i].counted <==> counted(targets[i]))
    requires forall i | 0 <= i < |targets| :: PhasesAgree(targets[i], outcomes[i])
    ensures Scanned(outcomes, |targets|).scan == TargetScan(|Filter(targets, counted)|, Embedded(targets), FoundationEmbedded(targets))
  {
    EmbeddingMeaning(targets, outcomes);
    ScannedFlags(outcomes, |targets|);
    ScannedCount(targets, outcomes, counted, |targets|);
    assert targets[..|targets|] == targets;
  }

  /** The embedding flags the outcomes set are the ones the application targets' phases call for. */
  lemma EmbeddingMeaning(targets: seq<Target>, outcomes: seq<TargetOutcome>)
    requires |targets| == |outcomes|
    requires forall i | 0 <= i < |targets| :: PhasesAgree(targets[i], outcomes[i])
    ensures (exists i | 0 <= i < |targets| :: outcomes[i].embedsAppExtensions) <==> Embedded(targets)
    ensures (exists i | 0 <= i < |targets| :: outcomes[i].embedsFoundationExtensions) <==> FoundationEmbedded(targets)
  {
    if Embedded(targets) {
      var t :| t in targets && IsApplication(t) && HasPhase(t, EmbedAppExtensions);
      var i :| 0 <= i < |targets| && targets[i] == t;
      assert PhasesAgree(targets[i], outcomes[i]);
    }
    if exists i | 0 <= i < |targets| :: outcomes[i].embedsAppExtensions {
      var i :| 0 <= i < |targets| && outcomes[i].embedsAppExtensions;
      assert PhasesAgree(targets[i], outcomes[i]);
      assert targets[i] in targets;
    }
    if FoundationEmbedded(targets) {
      var t :| t in targets && IsApplication(t) && !HasPhase(t, EmbedAppExtensions) && HasPhase(t, EmbedFoundationExtensions);
      var i :| 0 <= i < |targets| && targets[i] == t;
      assert PhasesAgree(targets[i], outcomes[i]);
    }
    if exists i | 0 <= i < |targets| :: outcomes[i].embedsFoundationExtensions {
      var i :| 0 <= i < |targets| && outcomes[i].embedsFoundationExtensions;
      assert PhasesAgree(targets[i], outcomes[i]);
      assert targets[i] in targets;
    }
  }

}
