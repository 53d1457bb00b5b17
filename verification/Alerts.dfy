/** Failure counting and alert latching of the probe loop (internal/ha/controller.go:110-134), for one node and every
    history of observations. */
module Alerts {

  datatype Alert = FailureAlert | RecoveryAlert

  /** What the controller remembers of a node between probes. */
  datatype Track = Track(failures: nat, alerted: bool)

  /** One probe of the node. */
  function Observe(t: Track, healthy: bool, threshold: nat): Track {
    var failures := if healthy then 0 else t.failures + 1;
    Track(failures, if failures >= threshold && !t.alerted then true else t.alerted && !healthy)
  }

  /** The alert that this probe sends, if any. */
  function Sends(t: Track, healthy: bool, threshold: nat): seq<Alert> {
    var failures := if healthy then 0 else t.failures + 1;
    if failures >= threshold && !t.alerted then [FailureAlert]
    else if healthy && t.alerted then [RecoveryAlert]
    else []
  }

  /** Observations, oldest first; true is healthy. */
  type History = seq<bool>

  function TrackOf(h: History, threshold: nat): Track {
    if h == [] then Track(0, false) else Observe(TrackOf(h[..|h| - 1], threshold), h[|h| - 1], threshold)
  }

  function AlertsOf(h: History, threshold: nat): seq<Alert> {
    if h == [] then []
    else AlertsOf(h[..|h| - 1], threshold) + Sends(TrackOf(h[..|h| - 1], threshold), h[|h| - 1], threshold)
  }

  /** A further probe. */
  lemma OneMoreProbe(h: History, healthy: bool, threshold: nat)
    ensures TrackOf(h + [healthy], threshold) == Observe(TrackOf(h, threshold), healthy, threshold)
    ensures AlertsOf(h + [healthy], threshold) ==
            AlertsOf(h, threshold) + Sends(TrackOf(h, threshold), healthy, threshold)
  {}

  // --- The specification, in terms of runs of failures ---

  predicate AllDown(h: History, from: nat, to: nat)
    requires from <= to <= |h|
  {
    forall i | from <= i < to :: !h[i]
  }

  /** `n` is the length of the unhealthy run that ends the history. */
  predicate TrailingRun(h: History, n: nat) {
    n <= |h| && AllDown(h, |h| - n, |h|) && (n == |h| || h[|h| - n - 1])
  }

  /** A maximal unhealthy run of at least `k` observations starts at `a`. */
  predicate LongRunAt(h: History, k: nat, a: nat) {
    a + k <= |h| && AllDown(h, a, a + k) && (a == 0 || h[a - 1])
  }

  function LongRuns(h: History, k: nat): set<nat> {
    set a | 0 <= a <= |h| && LongRunAt(h, k, a)
  }

  // --- The state machine meets it ---

  /** The failure count is the trailing unhealthy run; the node is latched exactly when that run reaches a positive
      threshold. */
  lemma {:induction false} CountsAndLatches(h: History, threshold: nat)
    ensures var t := TrackOf(h, threshold);
            TrailingRun(h, t.failures) && (threshold >= 1 ==> (t.alerted <==> t.failures >= threshold))
  {
    if h != [] {
      CountsAndLatches(h[..|h| - 1], threshold);
    }
  }

  /** Failure and recovery alerts alternate, beginning with a failure; the last one says whether the node is latched. */
  lemma {:induction false} AlertsAlternate(h: History, threshold: nat)
    requires threshold >= 1
    ensures var sent := AlertsOf(h, threshold);
            && (forall i | 0 <= i < |sent| :: sent[i] == if i % 2 == 0 then FailureAlert else RecoveryAlert)
            && (TrackOf(h, threshold).alerted <==> |sent| % 2 == 1)
  {
    if h != [] {
      AlertsAlternate(h[..|h| - 1], threshold);
      CountsAndLatches(h[..|h| - 1], threshold);
    }
  }

  /** A new observation completes a long run exactly when it makes the trailing run `k` long. */
  lemma LongRunsGrow(h: History, b: bool, k: nat, n: nat)
    requires k >= 1 && TrailingRun(h + [b], n)
    ensures LongRuns(h + [b], k) == LongRuns(h, k) + if n == k then {|h| + 1 - k} else {}
  {
    var h' := h + [b];
    forall a: nat ensures LongRunAt(h', k, a) <==> LongRunAt(h, k, a) || (n == k && a == |h'| - k) {
      if a + k <= |h| {
        assert AllDown(h', a, a + k) <==> AllDown(h, a, a + k) by {
          assert forall i | a <= i < a + k :: h'[i] == h[i];
        }
      }
    }
  }

  /** One failure alert is sent for every maximal unhealthy run at least as long as the threshold, and no other. */
  lemma {:induction false} OneAlertPerLongRun(h: History, threshold: nat)
    requires threshold >= 1
    ensures multiset(AlertsOf(h, threshold))[FailureAlert] == |LongRuns(h, threshold)|
  {
    if h == [] {
      assert LongRuns(h, threshold) == {};
    } else {
      var g, b := h[..|h| - 1], h[|h| - 1];
      assert h == g + [b];
      OneAlertPerLongRun(g, threshold);
      CountsAndLatches(g, threshold);
      CountsAndLatches(h, threshold);
      LongRunsGrow(g, b, threshold, TrackOf(h, threshold).failures);
      assert |g| + 1 - threshold !in LongRuns(g, threshold);
    }
  }
}
