/** The crash counter of the per-socket serving loop in
    pkg/plugins/skeleton/generic.go: every time Serve returns an error the loop asks
    for a wrapper Restart if the counter already exceeds 5, then resets the counter
    to 1 when more than an hour passed since the previous crash (or since the loop
    began) and increments it otherwise. */
module CrashLoop {

  const RestartThreshold: nat := 5
  const CrashWindowSeconds: real := 3600.0

  /** Seconds between successive crashes: the first gap is measured from the time the
      loop began, each later one from the previous crash. */
  function Gaps(start: real, crashTimes: seq<real>): (g: seq<real>)
    ensures |g| == |crashTimes|
  {
    seq(|crashTimes|, i requires 0 <= i < |crashTimes| =>
      crashTimes[i] - (if i == 0 then start else crashTimes[i - 1]))
  }

  /** restartCount after the crashes with the given gaps, as a fold from the left. */
  function CountAfter(gaps: seq<real>): nat
  {
    if gaps == [] then 0
    else
      var before := CountAfter(gaps[..|gaps| - 1]);
      if gaps[|gaps| - 1] > CrashWindowSeconds then 1 else before + 1
  }

  /** For every crash, whether the loop called Restart at that crash. */
  function Decisions(gaps: seq<real>): (d: seq<bool>)
    ensures |d| == |gaps|
  {
    if gaps == [] then []
    else Decisions(gaps[..|gaps| - 1]) + [CountAfter(gaps[..|gaps| - 1]) > RestartThreshold]
  }

  /** The serving loop, fed with the times at which successive Serve calls returned an
      error; a Serve call returning nil ends the loop after the last of them.
      restartRequested[i] says whether crash i made the loop call Restart. */
  method ServeLoop(start: real, crashTimes: seq<real>) returns (restartRequested: seq<bool>, restartCount: nat)
    ensures restartRequested == Decisions(Gaps(start, crashTimes))
    ensures restartCount == CountAfter(Gaps(start, crashTimes))
  {
    var lastCrashTime := start;
    restartCount := 0;
    restartRequested := [];
    var i := 0;
    while i < |crashTimes|
      invariant 0 <= i <= |crashTimes|
      invariant lastCrashTime == if i == 0 then start else crashTimes[i - 1]
      invariant restartRequested == Decisions(Gaps(start, crashTimes[..i]))
      invariant restartCount == CountAfter(Gaps(start, crashTimes[..i]))
    {
      var now := crashTimes[i];
      restartRequested := restartRequested + [restartCount > RestartThreshold];
      var timeSinceLastCrash := now - lastCrashTime;
      lastCrashTime := now;
      if timeSinceLastCrash > CrashWindowSeconds {
        restartCount := 1;
      } else {
        restartCount := restartCount + 1;
      }
      GapsExtend(start, crashTimes, i);
      i := i + 1;
    }
    assert crashTimes[..i] == crashTimes;
  }

  lemma GapsExtend(start: real, crashTimes: seq<real>, i: nat)
    requires i < |crashTimes|
    ensures var g := Gaps(start, crashTimes[..i + 1]);
            g[..i] == Gaps(start, crashTimes[..i])
            && g[i] == crashTimes[i] - (if i == 0 then start else crashTimes[i - 1])
  {
  }

  /** The last k crashes each came within an hour of the crash before them. */
  predicate QuietTail(gaps: seq<real>, k: nat)
  {
    forall j :: |gaps| - k <= j < |gaps| && 0 <= j ==> gaps[j] <= CrashWindowSeconds
  }

  /** restartCount is at least k (k >= 1) exactly when there were at least k crashes
      and each of the last k - 1 came within an hour of the one before it. */
  lemma {:induction false} CountAtLeastIff(gaps: seq<real>, k: nat)
    requires k >= 1
    ensures CountAfter(gaps) >= k <==> |gaps| >= k && QuietTail(gaps, k - 1)
  {
    if gaps != [] {
      var n := |gaps|;
      var prefix := gaps[..n - 1];
      if gaps[n - 1] <= CrashWindowSeconds && k >= 2 {
        CountAtLeastIff(prefix, k - 1);
        if QuietTail(prefix, k - 2) {
          forall j | n - (k - 1) <= j < n && 0 <= j
            ensures gaps[j] <= CrashWindowSeconds
          {
            if j < n - 1 {
              assert prefix[j] == gaps[j];
            }
          }
        }
        if QuietTail(gaps, k - 1) {
          forall j | (n - 1) - (k - 2) <= j < n - 1 && 0 <= j
            ensures prefix[j] <= CrashWindowSeconds
          {
            assert prefix[j] == gaps[j];
          }
        }
      } else if gaps[n - 1] > CrashWindowSeconds && k >= 2 {
        assert !QuietTail(gaps, k - 1) by {
          assert gaps[n - 1] > CrashWindowSeconds;
        }
      }
    }
  }

  /** Crash i asks for a Restart exactly when it is the seventh crash or later and each
      of the five crashes before it came within an hour of its predecessor; the gap
      of crash i itself plays no part, because the counter is tested before it is
      updated. */
  lemma {:induction false} RestartIff(gaps: seq<real>, i: nat)
    requires i < |gaps|
    ensures Decisions(gaps)[i]
        <==> i >= 6 && forall j :: i - 5 <= j < i ==> gaps[j] <= CrashWindowSeconds
  {
    DecisionAt(gaps, i);
    CountAtLeastIff(gaps[..i], 6);
    var p := gaps[..i];
    if QuietTail(p, 5) && i >= 6 {
      forall j | i - 5 <= j < i
        ensures gaps[j] <= CrashWindowSeconds
      {
        assert p[j] == gaps[j];
      }
    }
    if i >= 6 && forall j :: i - 5 <= j < i ==> gaps[j] <= CrashWindowSeconds {
      forall j | |p| - 5 <= j < |p| && 0 <= j
        ensures p[j] <= CrashWindowSeconds
      {
        assert p[j] == gaps[j];
      }
    }
  }

  lemma {:induction false} DecisionAt(gaps: seq<real>, i: nat)
    requires i < |gaps|
    ensures Decisions(gaps)[i] == (CountAfter(gaps[..i]) > RestartThreshold)
  {
    var n := |gaps|;
    if i < n - 1 {
      DecisionAt(gaps[..n - 1], i);
      assert gaps[..n - 1][..i] == gaps[..i];
    }
  }

  /** When no two crashes are more than an hour apart, no crash before the seventh asks
      for a Restart and every crash from the seventh on does. */
  lemma FirstRestartOnSeventhCrash(gaps: seq<real>)
    requires forall j :: 0 <= j < |gaps| ==> gaps[j] <= CrashWindowSeconds
    ensures forall i :: 0 <= i < |gaps| ==> (Decisions(gaps)[i] <==> i >= 6)
  {
    forall i | 0 <= i < |gaps|
      ensures Decisions(gaps)[i] <==> i >= 6
    {
      RestartIff(gaps, i);
    }
  }

  /** A crash more than an hour after the previous one shields the five crashes after
      it from asking for a Restart. */
  lemma QuietHourResets(gaps: seq<real>, r: nat, i: nat)
    requires r < i < |gaps| && i <= r + 5
    requires gaps[r] > CrashWindowSeconds
    ensures !Decisions(gaps)[i]
  {
    RestartIff(gaps, i);
  }
}
