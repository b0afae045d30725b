/** The player probe's assessment (ops/scripts/stream_v3_player_av_probe.py): one pass over the samples against the
    runs of valid, pairwise progressing samples.
 */
module PlayerContinuity {
  import opened Options

  datatype Sample = Sample(
    present: bool, videoId: Option<string>, ad: bool, ready: int, paused: bool, ended: bool, error: bool,
    width: int, height: int, elapsed: real, frames: int, mediaTime: real, audioBytes: int,
    rms: Option<real>, audioError: bool, muted: bool)

  /** The default of `minimum`. */
  const MIN_CONTINUOUS_SECONDS := 60.0

  // ----- The reference: runs

  /** The player shows the target, without an advertisement, and plays. */
  predicate Plays(s: Sample, videoId: string) {
    && s.present && s.videoId == Some(videoId)
    && !s.ad && !s.paused && !s.ended && !s.error
    && s.ready >= 3 && s.width > 0 && s.height > 0
  }

  /** At most 5 s on, and everything has advanced. */
  predicate Advances(last: Sample, s: Sample) {
    && last.elapsed < s.elapsed <= last.elapsed + 5.0
    && last.frames < s.frames && last.mediaTime < s.mediaTime && last.audioBytes < s.audioBytes
  }

  /** The samples `i..j` all play and each one advances on the one before. */
  predicate IsRun(samples: seq<Sample>, videoId: string, i: int, j: int) {
    && 0 <= i < j <= |samples|
    && (forall k :: i <= k < j ==> Plays(samples[k], videoId))
    && (forall k :: i < k < j ==> Advances(samples[k - 1], samples[k]))
  }

  function Span(samples: seq<Sample>, i: int, j: int): real
    requires 0 <= i < j <= |samples|
  {
    samples[j - 1].elapsed - samples[i].elapsed
  }

  function AudibleIn(samples: seq<Sample>, i: nat, j: nat): nat
    requires i <= j <= |samples|
  {
    if i == j then 0
    else
      var s := samples[j - 1];
      AudibleIn(samples, i, j - 1)
      + if s.rms.Some? && s.rms.value > 0.00001 && !s.audioError && !s.muted then 1 else 0
  }

  /** A run that ends at the last sample and cannot start earlier. */
  predicate FinalRun(samples: seq<Sample>, videoId: string, i: int) {
    IsRun(samples, videoId, i, |samples|) && !IsRun(samples, videoId, i - 1, |samples|)
  }

  /** `longest` is the largest span over all runs that end by `n`, and 0 when there is none. */
  ghost predicate IsLongest(samples: seq<Sample>, videoId: string, n: int, longest: real) {
    && longest >= 0.0
    && (forall i, j :: IsRun(samples, videoId, i, j) && j <= n ==> Span(samples, i, j) <= longest)
    && (longest == 0.0 || exists i, j :: IsRun(samples, videoId, i, j) && j <= n && Span(samples, i, j) == longest)
  }

  /** Where the run that ends at `n` starts; `n` itself when there is no such run. */
  function RunStart(samples: seq<Sample>, videoId: string, n: nat): (start: nat)
    requires n <= |samples|
    ensures start <= n && (start < n <==> n > 0 && Plays(samples[n - 1], videoId))
  {
    if n == 0 || !Plays(samples[n - 1], videoId) then n
    else if n > 1 && Plays(samples[n - 2], videoId) && Advances(samples[n - 2], samples[n - 1]) then
      RunStart(samples, videoId, n - 1)
    else n - 1
  }

  lemma {:induction false} RunStartIsMaximal(samples: seq<Sample>, videoId: string, n: nat)
    requires n <= |samples|
    ensures
      var start := RunStart(samples, videoId, n);
      && (start < n ==> IsRun(samples, videoId, start, n))
      && forall i :: IsRun(samples, videoId, i, n) ==> start <= i
    decreases n
  {
    hide Plays, Advances;
    if n > 0 && Plays(samples[n - 1], videoId) {
      RunStartIsMaximal(samples, videoId, n - 1);
      var start := RunStart(samples, videoId, n);
      forall i | IsRun(samples, videoId, i, n) ensures start <= i {
        if i < n - 1 {
          assert IsRun(samples, videoId, i, n - 1) && Advances(samples[n - 2], samples[n - 1]);
        }
      }
    }
  }

  /** Time only grows along a run, so the earliest start gives the largest span. */
  lemma {:induction false} SpanGrows(samples: seq<Sample>, videoId: string, i: int, k: int, j: int)
    requires IsRun(samples, videoId, i, j) && i <= k < j
    ensures 0.0 <= Span(samples, k, j) <= Span(samples, i, j)
    decreases j
  {
    if k < j - 1 {
      SpanGrows(samples, videoId, i, k, j - 1);
    } else if i < k {
      SpanGrows(samples, videoId, i, k - 1, j - 1);
    }
    if i < j - 1 {
      assert Advances(samples[j - 2], samples[j - 1]);
    }
  }

  lemma LongestOneMore(samples: seq<Sample>, videoId: string, n: nat, longest: real, span: real)
    requires n < |samples| && IsLongest(samples, videoId, n, longest)
    requires
      var start := RunStart(samples, videoId, n + 1);
      start < n + 1 && span == Span(samples, start, n + 1)
    ensures IsLongest(samples, videoId, n + 1, if longest >= span then longest else span)
  {
    hide Plays, Advances;
    var start := RunStart(samples, videoId, n + 1);
    RunStartIsMaximal(samples, videoId, n + 1);
    SpanGrows(samples, videoId, start, start, n + 1);
    forall i, j | IsRun(samples, videoId, i, j) && j <= n + 1
      ensures Span(samples, i, j) <= if longest >= span then longest else span
    {
      if j == n + 1 {
        SpanGrows(samples, videoId, start, i, j);
      }
    }
  }

  lemma LongestSkips(samples: seq<Sample>, videoId: string, n: nat, longest: real)
    requires n < |samples| && IsLongest(samples, videoId, n, longest) && !Plays(samples[n], videoId)
    ensures IsLongest(samples, videoId, n + 1, longest)
  {
    forall i, j | IsRun(samples, videoId, i, j) && j <= n + 1 ensures j <= n {
      assert Plays(samples[j - 1], videoId);
    }
  }

  // ----- The program

  datatype Report = Pass(verified: real, start: real, end: real) | Unverified(verified: real)

  /** PASS for exactly the samples whose final maximal run is long enough with three audible samples; the report
      then gives that run, and otherwise the largest span over all runs. */
  method Assess(samples: seq<Sample>, videoId: string, minimum: real := MIN_CONTINUOUS_SECONDS) returns (report: Report)
    ensures report.Pass? <==> exists i :: Qualifies(samples, videoId, minimum, i)
    ensures report.Pass? ==>
      exists i :: Qualifies(samples, videoId, minimum, i) && report.verified == Span(samples, i, |samples|)
        && report.start == samples[i].elapsed && report.end == samples[|samples| - 1].elapsed
    ensures report.Unverified? ==> IsLongest(samples, videoId, |samples|, report.verified)
  {
    hide IsRun, IsLongest;
    var start: Option<real>, last: Option<Sample> := None, None;
    var audible, longest, span := 0, 0.0, 0.0;
    NoRuns(samples, videoId);
    ghost var from := 0;
    for n := 0 to |samples|
      invariant from == RunStart(samples, videoId, n)
      invariant last == (if from < n then Some(samples[n - 1]) else None)
      invariant start == (if from < n then Some(samples[from].elapsed) else None)
      invariant span == if from < n then Span(samples, from, n) else 0.0
      invariant audible == AudibleIn(samples, from, n)
      invariant IsLongest(samples, videoId, n, longest)
    {
      var s := samples[n];
      var valid := s.present && s.videoId == Some(videoId) && !s.ad && s.ready >= 3 && !s.paused && !s.ended
        && !s.error && s.width > 0 && s.height > 0;
      var progressing := last.Some? && valid && 0.0 < s.elapsed - last.value.elapsed <= 5.0
        && s.frames > last.value.frames && s.mediaTime > last.value.mediaTime
        && s.audioBytes > last.value.audioBytes;
      if !valid {
        LongestSkips(samples, videoId, n, longest);
        start, last, audible, span, from := None, None, 0, 0.0, n + 1;
        continue;
      }
      if !progressing {
        start, audible, from := Some(s.elapsed), 0, n;
      }
      if s.rms.Some? && s.rms.value > 0.00001 && !s.audioError && !s.muted {
        audible := audible + 1;
      }
      span := s.elapsed - start.value;
      LongestOneMore(samples, videoId, n, longest, span);
      longest := if longest >= span then longest else span;
      last := Some(s);
    }
    FinalRunIs(samples, videoId, minimum);
    if span >= minimum && audible >= 3 {
      assert Qualifies(samples, videoId, minimum, from);
      report := Pass(span, start.value, last.value.elapsed);
    } else {
      report := Unverified(longest);
    }
  }

  predicate Qualifies(samples: seq<Sample>, videoId: string, minimum: real, i: int) {
    FinalRun(samples, videoId, i) && Span(samples, i, |samples|) >= minimum && AudibleIn(samples, i, |samples|) >= 3
  }

  lemma NoRuns(samples: seq<Sample>, videoId: string)
    ensures IsLongest(samples, videoId, 0, 0.0)
  {
  }

  /** The only run that can qualify is the one the loop tracks. */
  lemma FinalRunIs(samples: seq<Sample>, videoId: string, minimum: real)
    ensures
      var from := RunStart(samples, videoId, |samples|);
      && (from < |samples| ==> FinalRun(samples, videoId, from))
      && forall i :: Qualifies(samples, videoId, minimum, i) ==> i == from && from < |samples|
  {
    hide AudibleIn, Span;
    var n := |samples|;
    var from := RunStart(samples, videoId, n);
    RunStartIsMaximal(samples, videoId, n);
    forall i | FinalRun(samples, videoId, i) ensures i == from {
    }
  }
}
