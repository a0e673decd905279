/** Exit-status handling in `run()`: the prerequisite probe, and the loop that
    starts every planned command and reports each positive exit status. */
module Execution {
  import opened Text

  /** What the action reports once its commands have run. */
  datatype Status = Passed | PrerequisiteMissing | RunFailed(code: int)

  const PrerequisiteMessage :=
    "Python does not appear to be setup, please include \"- uses: actions/setup-python@v2\" in your workflow."
  const RunFailedPrefix := "Treebeard CLI run failed with status code "

  /** Some command exited with a positive status. */
  predicate SomeFailed(statuses: seq<int>) {
    exists i :: 0 <= i < |statuses| && statuses[i] > 0
  }

  /** `code` is the last positive status: it occurs, and only non-positive statuses follow it. */
  predicate IsLastFailure(statuses: seq<int>, code: int) {
    exists i :: 0 <= i < |statuses| && statuses[i] == code && code > 0 &&
      forall j :: i < j < |statuses| ==> statuses[j] <= 0
  }

  /** The loop body applied to each status in turn: a positive status replaces
      what was recorded so far, anything else leaves it. */
  function Fold(acc: Status, statuses: seq<int>): Status
    decreases |statuses|
  {
    if |statuses| == 0 then acc
    else Fold(if statuses[0] > 0 then RunFailed(statuses[0]) else acc, statuses[1..])
  }

  lemma {:induction false} FoldOutcome(acc: Status, statuses: seq<int>)
    ensures SomeFailed(statuses) ==>
      Fold(acc, statuses).RunFailed? && IsLastFailure(statuses, Fold(acc, statuses).code)
    ensures !SomeFailed(statuses) ==> Fold(acc, statuses) == acc
    decreases |statuses|
  {
    if |statuses| > 0 {
      var rest := statuses[1..];
      var acc' := if statuses[0] > 0 then RunFailed(statuses[0]) else acc;
      FoldOutcome(acc', rest);
      if SomeFailed(rest) {
        var c := Fold(acc', rest).code;
        var i :| 0 <= i < |rest| && rest[i] == c && c > 0 &&
          forall j :: i < j < |rest| ==> rest[j] <= 0;
        assert statuses[i + 1] == c;
        assert forall j :: i + 1 < j < |statuses| ==> statuses[j] == rest[j - 1];
      } else {
        assert forall j :: 0 < j < |statuses| ==> statuses[j] == rest[j - 1];
        if statuses[0] > 0 {
          assert IsLastFailure(statuses, statuses[0]);
        } else {
          assert forall j :: 0 <= j < |statuses| ==> statuses[j] <= 0 by {
            forall j | 0 <= j < |statuses| ensures statuses[j] <= 0 {
              if j > 0 {
                assert statuses[j] == rest[j - 1];
              }
            }
          }
        }
      }
    }
  }

  /** The outcome of a run: a failed probe stops everything; otherwise the run
      fails exactly when some command exits with a positive status, and then
      with the last such status. Zero and negative statuses never fail. */
  function Reconcile(probeStatus: int, statuses: seq<int>): (r: Status)
    ensures probeStatus != 0 <==> r == PrerequisiteMissing
    ensures probeStatus == 0 ==> (r.RunFailed? <==> SomeFailed(statuses))
    ensures probeStatus == 0 && !SomeFailed(statuses) ==> r == Passed
    ensures r.RunFailed? ==> IsLastFailure(statuses, r.code)
  {
    if probeStatus != 0 then PrerequisiteMissing
    else
      FoldOutcome(Passed, statuses);
      Fold(Passed, statuses)
  }

  /** The message of one failure report: the status in decimal. */
  function RunFailedMessage(code: nat): (m: string)
    ensures |RunFailedPrefix| < |m| && m[..|RunFailedPrefix|] == RunFailedPrefix
    ensures AllDigits(m[|RunFailedPrefix|..]) && DigitsValue(m[|RunFailedPrefix|..]) == code
    ensures code > 0 ==> m[|RunFailedPrefix|] != '0'
    ensures code == 0 ==> m[|RunFailedPrefix|..] == "0"
  {
    DecimalRoundTrip(code);
    var m := RunFailedPrefix + Decimal(code);
    assert m[|RunFailedPrefix|..] == Decimal(code);
    m
  }

  /** The failure reports, one per positive status, in order (the action does
      not stop at the first one). */
  function FailureReports(statuses: seq<int>): seq<string>
    decreases |statuses|
  {
    if |statuses| == 0 then []
    else
      var n := |statuses| - 1;
      FailureReports(statuses[..n])
      + (if statuses[n] > 0 then [RunFailedMessage(statuses[n])] else [])
  }

  /** The positions of the positive statuses. */
  function FailedAt(statuses: seq<int>): set<nat> {
    set i: nat | i < |statuses| && statuses[i] > 0
  }

  /** One report per positive status: there are as many reports as positive
      statuses. */
  lemma {:induction false} OneReportPerFailure(statuses: seq<int>)
    ensures |FailureReports(statuses)| == |FailedAt(statuses)|
    decreases |statuses|
  {
    if |statuses| == 0 {
      assert FailedAt(statuses) == {};
    } else {
      var n := |statuses| - 1;
      var prefix := statuses[..n];
      OneReportPerFailure(prefix);
      var last: set<nat> := if statuses[n] > 0 then {n} else {};
      assert FailedAt(statuses) == FailedAt(prefix) + last by {
        forall i: nat | i < n ensures statuses[i] == prefix[i] {}
      }
      assert n !in FailedAt(prefix);
    }
  }

  /** Every positive status has its message among the reports. */
  lemma {:induction false} EveryFailureReported(statuses: seq<int>, i: nat)
    requires i < |statuses| && statuses[i] > 0
    ensures RunFailedMessage(statuses[i]) in FailureReports(statuses)
    decreases |statuses|
  {
    var n := |statuses| - 1;
    var prefix := statuses[..n];
    var latest := if statuses[n] > 0 then [RunFailedMessage(statuses[n])] else [];
    assert FailureReports(statuses) == FailureReports(prefix) + latest;
    if i < n {
      assert prefix[i] == statuses[i];
      EveryFailureReported(prefix, i);
    } else {
      assert latest == [RunFailedMessage(statuses[i])];
    }
  }

  /** There is a report exactly when some status is positive. */
  lemma {:induction false} ReportsIffFailed(statuses: seq<int>)
    ensures FailureReports(statuses) == [] <==> !SomeFailed(statuses)
    decreases |statuses|
  {
    if |statuses| > 0 {
      var n := |statuses| - 1;
      var prefix := statuses[..n];
      ReportsIffFailed(prefix);
      if SomeFailed(prefix) {
        var i :| 0 <= i < |prefix| && prefix[i] > 0;
        assert statuses[i] > 0;
      }
      if SomeFailed(statuses) && statuses[n] <= 0 {
        var i :| 0 <= i < |statuses| && statuses[i] > 0;
        assert prefix[i] > 0;
      }
    }
  }

  /** The last report names the last positive status. */
  lemma {:induction false} LastReport(statuses: seq<int>, i: nat)
    requires i < |statuses| && statuses[i] > 0
    requires forall j :: i < j < |statuses| ==> statuses[j] <= 0
    ensures FailureReports(statuses) != []
    ensures FailureReports(statuses)[|FailureReports(statuses)| - 1] == RunFailedMessage(statuses[i])
    decreases |statuses|
  {
    var n := |statuses| - 1;
    if i < n {
      var prefix := statuses[..n];
      assert statuses[n] <= 0;
      LastReport(prefix, i);
    }
  }

  /** The reports agree with the reconciled outcome: there are none exactly when
      the run passed, and the last one names the reported status. */
  lemma ReportsMatchReconcile(statuses: seq<int>)
    ensures FailureReports(statuses) == [] <==> Reconcile(0, statuses) == Passed
    ensures Reconcile(0, statuses).RunFailed? ==>
      && Reconcile(0, statuses).code > 0
      && FailureReports(statuses) != []
      && FailureReports(statuses)[|FailureReports(statuses)| - 1] == RunFailedMessage(Reconcile(0, statuses).code)
  {
    ReportsIffFailed(statuses);
    var r := Reconcile(0, statuses);
    if r.RunFailed? {
      var i :| 0 <= i < |statuses| && statuses[i] == r.code && r.code > 0 &&
        forall j :: i < j < |statuses| ==> statuses[j] <= 0;
      LastReport(statuses, i);
    }
  }

  /** The loop of `run()`: each planned command is started in order, whatever
      the previous ones returned, and each positive status is reported. */
  method ExecuteScript(script: seq<string>, exitOf: string -> int) returns (statuses: seq<int>, reports: seq<string>)
    ensures |statuses| == |script|
    ensures forall i :: 0 <= i < |script| ==> statuses[i] == exitOf(script[i])
    ensures reports == [] <==> Reconcile(0, statuses) == Passed
    ensures Reconcile(0, statuses).RunFailed? ==>
      reports != [] && reports[|reports| - 1] == RunFailedMessage(Reconcile(0, statuses).code)
    ensures reports == FailureReports(statuses)
  {
    statuses := [];
    reports := [];
    var i := 0;
    while i < |script|
      invariant 0 <= i <= |script|
      invariant |statuses| == i
      invariant forall j :: 0 <= j < i ==> statuses[j] == exitOf(script[j])
      invariant reports == FailureReports(statuses)
    {
      var status := exitOf(script[i]);
      statuses := statuses + [status];
      assert statuses[..i] == statuses[..|statuses| - 1];
      if status > 0 {
        reports := reports + [RunFailedMessage(status)];
      }
      i := i + 1;
    }
    ReportsMatchReconcile(statuses);
  }
}
