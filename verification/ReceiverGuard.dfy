/** The Airspy receiver guard (ops/airspy-reception/receiver_guard.py): one observation as the
    durable effects it performs, in order, and the in-place program that performs them.
 */
module ReceiverGuard {
  import opened Options

  datatype PolicyValues = PolicyValues(
    rateRatio: real, baselineSec: real, graceSec: real, sustainSec: real, startupWindowSec: real,
    sampleMaxAgeSec: real, minSamples: int, baselineMinSamples: int, baselineMinPositions: int, cooldownSec: real)

  predicate Accepted(p: PolicyValues) {
    && 0.0 < p.rateRatio < 1.0
    && p.baselineSec > 0.0 && p.graceSec > 0.0 && p.sustainSec > 0.0 && p.startupWindowSec > 0.0
    && p.sampleMaxAgeSec > 0.0 && p.cooldownSec > 0.0 && p.baselineMinPositions > 0
    && p.minSamples >= 2 && p.baselineMinSamples >= 2
    && p.startupWindowSec > p.graceSec + p.sustainSec
  }

  const DEFAULT_POLICY := PolicyValues(0.1, 300.0, 90.0, 180.0, 900.0, 90.0, 3, 3, 2, 300.0)

  /** The policies that the program lets run. */
  type Policy = p: PolicyValues | Accepted(p) witness DEFAULT_POLICY

  /** What a digest of the configuration, the binary and the command line bind. */
  datatype Receiver = Receiver(configSha: string, binarySha: string, commandSha: string)

  datatype Sample = Sample(
    mono: real, boot: string, instance: string, startMono: real, startEpoch: real,
    sourceNow: real, readsbNow: real, readsbStart: real,
    rate: real, positions: real, lostBuffers: real, freshPositions: nat, receiver: Receiver)

  datatype BaselineValues = BaselineValues(rate: real, readsbStart: real, samples: nat,
      lastPositions: real, capturedMono: real)

  /** A baseline is only ever built on a positive rate. */
  type Baseline = b: BaselineValues | b.rate > 0.0 witness BaselineValues(1.0, 0.0, 0, 0.0, 0.0)

  datatype BadEntry = BadEntry(sourceNow: real, mono: real, rate: real, ratio: real, positions: real)

  datatype Phase = Starting | Healthy | RestartReserved | Verifying | RestartFailed | OutcomeUnknown

  datatype Status = Status(phase: string, alert: bool, confirmed: bool)

  datatype Episode = Episode(
    boot: string, instance: string, originInstance: string, startMono: real, retryStartMono: Option<real>,
    baseline: Option<Baseline>, attempts: nat, phase: Phase, bad: seq<BadEntry>, good: nat, receiver: Receiver,
    lastSource: Option<real>, lastPost: Option<Sample>, policy: Policy, status: Option<Status>)

  datatype Restarted = Restarted(mono: real, boot: string)

  datatype State = State(episode: Option<Episode>, history: seq<Sample>, last: Option<Sample>,
      lastRestart: Option<Restarted>)

  const INITIAL_STATE := State(None, [], None, None)

  // ----- Baseline and episode

  predicate Recent(row: Sample, s: Sample, policy: Policy) {
    row.boot == s.boot && 0.0 <= s.mono - row.mono <= policy.baselineSec
  }

  function RecentRows(history: seq<Sample>, s: Sample, policy: Policy): seq<Sample> {
    if history == [] then []
    else
      (if Recent(history[0], s, policy) then [history[0]] else []) + RecentRows(history[1..], s, policy)
  }

  function Insert(x: real, sorted: seq<real>): (r: seq<real>)
    ensures |r| == |sorted| + 1
  {
    if sorted == [] || x <= sorted[0] then [x] + sorted else [sorted[0]] + Insert(x, sorted[1..])
  }

  function SortedRates(rows: seq<Sample>): (r: seq<real>)
    ensures |r| == |rows|
  {
    if rows == [] then [] else Insert(rows[0].rate, SortedRates(rows[1..]))
  }

  function MedianRate(rows: seq<Sample>): real
    requires rows != []
  {
    var rates := SortedRates(rows);
    var n := |rates|;
    if n % 2 == 1 then rates[n / 2] else (rates[n / 2 - 1] + rates[n / 2]) / 2.0
  }

  function BaselineFor(history: seq<Sample>, s: Sample, policy: Policy): Option<Baseline> {
    var rows := RecentRows(history, s, policy);
    var n := |rows|;
    if n < policy.baselineMinSamples then None
    else if exists k :: 0 <= k < n && rows[k].freshPositions < policy.baselineMinPositions then None
    else if exists k :: 0 <= k < n - 1 && rows[k + 1].sourceNow - rows[k].sourceNow > policy.sampleMaxAgeSec then None
    else if exists k :: 0 <= k < n && rows[k].readsbStart != rows[0].readsbStart then None
    else if rows[n - 1].positions <= rows[0].positions then None
    else if MedianRate(rows) <= 0.0 then None
    else Some(BaselineValues(MedianRate(rows), rows[n - 1].readsbStart, n, rows[n - 1].positions, s.mono))
  }

  predicate Ascending(rates: seq<real>) {
    forall i, j :: 0 <= i < j < |rates| ==> rates[i] <= rates[j]
  }

  function Rates(rows: seq<Sample>): multiset<real> {
    if rows == [] then multiset{} else Rates(rows[1..]) + multiset{rows[0].rate}
  }

  lemma {:induction false} InsertSorts(x: real, sorted: seq<real>)
    requires Ascending(sorted)
    ensures Ascending(Insert(x, sorted)) && multiset(Insert(x, sorted)) == multiset(sorted) + multiset{x}
    decreases |sorted|
  {
    if sorted != [] && x > sorted[0] {
      var rest := sorted[1..];
      InsertSorts(x, rest);
      var inserted := Insert(x, rest);
      assert sorted == [sorted[0]] + rest;
      forall k | 0 <= k < |inserted| ensures sorted[0] <= inserted[k] {
        assert inserted[k] in multiset(inserted);
        assert inserted[k] in multiset(rest) || inserted[k] == x;
      }
      Prepended(sorted[0], inserted);
    } else {
      Prepended(x, sorted);
    }
  }

  lemma Prepended(x: real, rates: seq<real>)
    requires Ascending(rates) && forall k :: 0 <= k < |rates| ==> x <= rates[k]
    ensures Ascending([x] + rates) && multiset([x] + rates) == multiset(rates) + multiset{x}
  {
  }

  /** The median is taken of the rates themselves, in order. */
  lemma {:induction false} SortedRatesSorts(rows: seq<Sample>)
    ensures Ascending(SortedRates(rows)) && multiset(SortedRates(rows)) == Rates(rows)
    decreases |rows|
  {
    if rows != [] {
      SortedRatesSorts(rows[1..]);
      InsertSorts(rows[0].rate, SortedRates(rows[1..]));
    }
  }

  /** Enough rows, all with fresh positions, without a gap, under one decoder, over a position counter that moved, and
      with a middle rate above zero. */
  predicate Earns(rows: seq<Sample>, policy: Policy) {
    var n := |rows|;
    && n >= policy.baselineMinSamples
    && (forall k :: 0 <= k < n ==> rows[k].freshPositions >= policy.baselineMinPositions)
    && (forall k :: 0 < k < n ==> rows[k].sourceNow <= rows[k - 1].sourceNow + policy.sampleMaxAgeSec)
    && (forall j, k :: 0 <= j < n && 0 <= k < n ==> rows[j].readsbStart == rows[k].readsbStart)
    && rows[0].positions < rows[n - 1].positions
    && SortedRates(rows)[(n - 1) / 2] + SortedRates(rows)[n / 2] > 0.0
  }

  /** A baseline is built exactly on recent rows that earn it; its rate is midway between their middle rates in order,
      so that at least half of them lie on each side. */
  lemma BaselineIsEarned(history: seq<Sample>, s: Sample, policy: Policy)
    ensures BaselineFor(history, s, policy).Some? <==> Earns(RecentRows(history, s, policy), policy)
    ensures BaselineFor(history, s, policy).Some? ==>
      var b := BaselineFor(history, s, policy).value;
      var rows := RecentRows(history, s, policy);
      var rates, n := SortedRates(rows), |rows|;
      && multiset(rates) == Rates(rows) && Ascending(rates)
      && b.rate + b.rate == rates[(n - 1) / 2] + rates[n / 2]
      && b.samples == n && b.capturedMono == s.mono && b.lastPositions == rows[n - 1].positions
      && b.readsbStart == rows[n - 1].readsbStart
      && (forall k :: 0 <= k < n && 2 * k < n ==> rates[k] <= b.rate)
      && (forall k :: 0 <= k < n && n <= 2 * k + 1 ==> b.rate <= rates[k])
  {
    hide MedianRate, SortedRates, RecentRows, Rates;
    var rows := RecentRows(history, s, policy);
    SortedRatesSorts(rows);
    if |rows| >= policy.baselineMinSamples {
      MedianIsMidway(rows);
      MiddleDivides(SortedRates(rows), MedianRate(rows));
    }
  }

  lemma Halves(n: nat)
    requires n > 0
    ensures (n - 1) / 2 == if n % 2 == 1 then n / 2 else n / 2 - 1
    ensures forall k: nat :: (2 * k < n ==> k <= (n - 1) / 2) && (n <= 2 * k + 1 ==> n / 2 <= k)
  {
  }

  lemma MedianIsMidway(rows: seq<Sample>)
    requires rows != []
    ensures
      var rates := SortedRates(rows);
      MedianRate(rows) + MedianRate(rows) == rates[(|rows| - 1) / 2] + rates[|rows| / 2]
  {
    hide SortedRates;
    Halves(|rows|);
  }

  lemma MiddleDivides(rates: seq<real>, middle: real)
    requires rates != [] && Ascending(rates)
    requires middle + middle == rates[(|rates| - 1) / 2] + rates[|rates| / 2]
    ensures forall k :: 0 <= k < |rates| && 2 * k < |rates| ==> rates[k] <= middle
    ensures forall k :: 0 <= k < |rates| && |rates| <= 2 * k + 1 ==> middle <= rates[k]
  {
    Halves(|rates|);
  }

  /** The recent rows are those of the history, each as often as there. */
  lemma {:induction false} RecentRowsKeepAll(history: seq<Sample>, s: Sample, policy: Policy, row: Sample)
    ensures
      multiset(RecentRows(history, s, policy))[row] ==
        if row.boot == s.boot && row.mono <= s.mono <= row.mono + policy.baselineSec then multiset(history)[row] else 0
    decreases |history|
  {
    if history != [] {
      var rest := history[1..];
      RecentRowsKeepAll(rest, s, policy, row);
      assert history == [history[0]] + rest;
      var front := if Recent(history[0], s, policy) then [history[0]] else [];
      assert RecentRows(history, s, policy) == front + RecentRows(rest, s, policy);
    }
  }

  /** They stand in its order: those of an earlier part come first. */
  lemma {:induction false} RecentRowsKeepOrder(history: seq<Sample>, s: Sample, policy: Policy, k: nat)
    requires k <= |history|
    ensures RecentRows(history[..k], s, policy) <= RecentRows(history, s, policy)
    decreases |history|
  {
    if k > 0 {
      RecentRowsKeepOrder(history[1..], s, policy, k - 1);
      assert history[..k][1..] == history[1..][..k - 1];
    }
  }

  function NewEpisode(history: seq<Sample>, s: Sample, policy: Policy): Episode {
    Episode(s.boot, s.instance, s.instance, s.startMono, None, BaselineFor(history, s, policy), 0, Starting, [], 0,
            s.receiver, None, None, policy, None)
  }

  /** A retry child of an episode whose restart is spent stays bound to its origin. */
  predicate Retries(e: Episode, s: Sample) {
    s.boot == e.boot && s.instance != e.instance && e.attempts == 1 && e.phase != Healthy
  }

  predicate OpensEpisode(state: State, s: Sample) {
    state.episode.None?
    || (!Retries(state.episode.value, s)
        && (s.boot != state.episode.value.boot || s.instance != state.episode.value.instance))
  }

  predicate Reboots(state: State, s: Sample) {
    state.episode.Some? && s.boot != state.episode.value.boot
  }

  function Bind(state: State, s: Sample, policy: Policy): Episode {
    if OpensEpisode(state, s) then NewEpisode(state.history, s, policy)
    else
      var e := state.episode.value;
      if Retries(e, s) then
        e.(instance := s.instance, lastSource := None, lastPost := None, bad := [], good := 0,
           retryStartMono := Some(s.startMono), phase := Verifying)
      else e
  }

  /** Keeps at most the last 32 recent rows; one source snapshot is remembered once. */
  function Remember(state: State, s: Sample, policy: Policy): State {
    var n := |state.history|;
    var grown :=
      if n == 0 || state.history[n - 1].sourceNow != s.sourceNow || state.history[n - 1].boot != s.boot
      then state.history + [s] else state.history;
    var rows := RecentRows(grown, s, policy);
    state.(history := if |rows| <= 32 then rows else rows[|rows| - 32..], last := Some(s))
  }

  // ----- One observation

  datatype RestartReply = Returned(code: int) | RaisedRestart

  /** What one invocation meets.  `first` is None when collecting raised, `recheck` when re-collecting did. */
  datatype Input = Input(
    first: Option<Sample>, recheck: Option<Sample>, restart: RestartReply,
    serviceStarting: bool, policy: Policy, allowEffect: bool)

  datatype Effect = Saved(state: State) | RestartCalled

  /** `accepted`: the sample became the episode's last post; `reserved`: the episode that justified a restart. */
  datatype Plan = Plan(effects: seq<Effect>, status: Status, accepted: bool, reserved: Option<Episode>)

  function SaveOnly(state: State, e: Episode, status: Status, accepted: bool): Plan {
    Plan([Saved(state.(episode := Some(e)))], status, accepted, None)
  }

  function Blind(state: State): State {
    if state.episode.None? then state
    else
      var e := state.episode.value;
      var alert := e.status.Some? && e.status.value.alert;
      state.(episode := Some(e.(bad := [], good := 0, lastPost := None, lastSource := None,
                                status := Some(Status("UNKNOWN", alert, false)))))
  }

  function Observe(state: State, i: Input): Plan {
    if i.first.None? then
      Plan([Saved(Blind(state))],
           if i.serviceStarting then Status("STARTING", false, false) else Status("UNKNOWN", true, false), false, None)
    else
      var s := i.first.value;
      var bound := Bind(state, s, i.policy);
      if s.receiver != bound.receiver then
        SaveOnly(state, bound.(bad := []), Status("UNKNOWN", true, false), false)
      else
        var e := if bound.policy == i.policy then bound else bound.(policy := i.policy, bad := []);
        if s.sourceNow < s.startEpoch || s.readsbNow < s.startEpoch then
          SaveOnly(state, e, Status("STARTING", false, false), false)
        else if e.lastSource == Some(s.sourceNow) then
          SaveOnly(state, e, Repeated(e, s), false)
        else if e.lastPost.Some?
             && (s.sourceNow < e.lastPost.value.sourceNow || s.readsbNow < e.lastPost.value.readsbNow) then
          SaveOnly(state, Unconfirmed(e.(bad := [], good := 0)), Status("UNKNOWN", true, false), false)
        else if e.lastPost.Some?
             && (s.readsbStart != e.lastPost.value.readsbStart || s.positions < e.lastPost.value.positions) then
          SaveOnly(state, Post(e.(bad := [], good := 0), s), Status("UNKNOWN", true, false), true)
        else
          Assess(state, e, s, i)
  }

  /** A repeated snapshot repeats the last status, confirmed only while positions are still fresh. */
  function Repeated(e: Episode, s: Sample): Status {
    if e.status.None? then Status("STARTING", false, false)
    else e.status.value.(confirmed := e.status.value.confirmed && s.freshPositions > 0)
  }

  function Unconfirmed(e: Episode): Episode {
    if e.status.None? then e else e.(status := Some(e.status.value.(confirmed := false)))
  }

  function Post(e: Episode, s: Sample): Episode {
    e.(lastSource := Some(s.sourceNow), lastPost := Some(s))
  }

  predicate Gap(e: Episode, s: Sample) {
    e.lastPost.Some? && s.sourceNow - e.lastPost.value.sourceNow > e.policy.sampleMaxAgeSec
  }

  predicate Progressing(e: Episode, s: Sample) {
    e.lastPost.Some? && !Gap(e, s) && s.positions > e.lastPost.value.positions
  }

  /** The sample becomes the last post; a gap starts the evidence afresh. */
  function Accept(e: Episode, s: Sample): Episode {
    var kept := if Gap(e, s) then e.(bad := [], good := 0) else e;
    var good := s.freshPositions > 0 && (Progressing(e, s) || e.lastPost.None?);
    Post(kept.(good := if good then kept.good + 1 else 0), s)
  }

  function Finish(state: State, e: Episode, s: Sample, i: Input, status: Status): Plan {
    Plan([Saved(Remember(state.(episode := Some(e.(status := Some(status)))), s, i.policy))], status, true, None)
  }

  function Elapsed(e: Episode, s: Sample): real {
    s.mono - (if e.retryStartMono.Some? then e.retryStartMono.value else e.startMono)
  }

  /** The sample shows the collapse signature against the baseline. */
  predicate Low(e: Episode, s: Sample, progressing: bool)
    requires e.baseline.Some?
  {
    s.freshPositions == 0 && !progressing && s.rate / e.baseline.value.rate < e.policy.rateRatio
  }

  function AddBad(e: Episode, s: Sample): Episode
    requires e.baseline.Some?
  {
    e.(bad := e.bad + [BadEntry(s.sourceNow, s.mono, s.rate, s.rate / e.baseline.value.rate, s.positions)])
  }

  predicate Sustained(e: Episode, s: Sample)
    requires e.bad != []
  {
    && |e.bad| >= e.policy.minSamples
    && s.sourceNow - e.bad[0].sourceNow >= e.policy.sustainSec
    && s.mono - e.bad[0].mono >= e.policy.sustainSec
  }

  function Assess(state: State, before: Episode, s: Sample, i: Input): Plan {
    var e := Accept(before, s);
    var progressing := Progressing(before, s);
    if e.good >= 2 then
      Finish(state, e.(phase := Healthy, bad := []), s, i, Status("HEALTHY", false, true))
    else if Elapsed(e, s) < e.policy.graceSec then
      Finish(state, e.(bad := []), s, i, Status("STARTING", false, false))
    else if e.baseline.None? then
      Finish(state, e, s, i, Status("QUIET_OR_UNKNOWN", false, false))
    else if e.phase == Healthy && s.mono - e.startMono > e.policy.startupWindowSec then
      Finish(state, e.(bad := []), s, i, Status("QUIET", false, false))
    else if s.readsbStart != e.baseline.value.readsbStart then
      Finish(state, e, s, i, Status("UNKNOWN", true, false))
    else if !Low(e, s, progressing) then
      Finish(state, e.(bad := []), s, i, Status("OBSERVING", false, false))
    else if !Sustained(AddBad(e, s), s) then
      Finish(state, AddBad(e, s), s, i, Status("SUSPECT", false, false))
    else
      Recover(state, AddBad(e, s), s, i)
  }

  predicate CooldownOk(state: State, s: Sample, policy: Policy) {
    || state.lastRestart.None?
    || state.lastRestart.value.boot != s.boot
    || s.mono - state.lastRestart.value.mono >= policy.cooldownSec
  }

  predicate SameIdentity(a: Sample, b: Sample) {
    a.boot == b.boot && a.instance == b.instance && a.receiver == b.receiver
  }

  /** The sample re-collected just before the effect still shows the collapse. */
  predicate StillCollapsed(e: Episode, s: Sample, check: Sample)
    requires e.baseline.Some?
  {
    && SameIdentity(check, s)
    && check.freshPositions == 0 && check.positions <= s.positions
    && check.rate / e.baseline.value.rate < e.policy.rateRatio
    && check.readsbStart == s.readsbStart && check.lostBuffers == 0.0
  }

  function Recover(state: State, e: Episode, s: Sample, i: Input): Plan
    requires e.baseline.Some?
  {
    if e.attempts > 0 then
      Finish(state, e, s, i, Status("EXHAUSTED", true, false))
    else if s.mono - e.startMono > e.policy.startupWindowSec
         || !CooldownOk(state, s, e.policy) || s.lostBuffers != 0.0 then
      Finish(state, e, s, i, Status("DEGRADED", true, false))
    else if !i.allowEffect then
      Finish(state, e, s, i, Status("WOULD_RESTART", true, false))
    else if i.recheck.None? then
      Plan([], Status("UNKNOWN", true, false), false, None)
    else
      var check := i.recheck.value;
      if !SameIdentity(check, s) then
        Finish(state, e, s, i, Status("UNKNOWN", true, false))
      else if check.freshPositions > 0 || check.positions > s.positions
        || check.rate / e.baseline.value.rate >= e.policy.rateRatio then
        Finish(state, e, s, i, Status("OBSERVING", true, false))
      else if check.readsbStart != s.readsbStart || check.lostBuffers != 0.0 then
        Finish(state, e, s, i, Status("UNKNOWN", true, false))
      else
        Reserve(state, e, s, i)
  }

  /** The attempt is durable before the restart, and its result is durable before the observation ends. */
  function Reserve(state: State, e: Episode, s: Sample, i: Input): Plan {
    var spent := e.(attempts := 1, phase := RestartReserved, bad := [], good := 0);
    var reserved := state.(episode := Some(spent), lastRestart := Some(Restarted(s.mono, s.boot)));
    var phase := match i.restart
      case Returned(code) => if code == 0 then Verifying else RestartFailed
      case RaisedRestart => OutcomeUnknown;
    var result := reserved.(episode := Some(spent.(phase := phase)));
    var status := Status(PhaseName(phase), true, false);
    var final := Remember(result.(episode := Some(spent.(phase := phase, status := Some(status)))), s, i.policy);
    Plan([Saved(reserved), RestartCalled, Saved(result), Saved(final)], status, true, Some(e))
  }

  function PhaseName(p: Phase): string {
    match p
    case Starting => "STARTING"
    case Healthy => "HEALTHY"
    case RestartReserved => "RESTART_RESERVED"
    case Verifying => "VERIFYING"
    case RestartFailed => "RESTART_FAILED"
    case OutcomeUnknown => "OUTCOME_UNKNOWN"
  }
}
