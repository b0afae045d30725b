/** The converse of the guard's justification: a sustained collapse is restarted, so that the guard is not merely
    careful.  `ReceiverRuns` says what every attempt rests on; here is what always leads to one.
 */
module ReceiverRecovery {
  import opened Options
  import opened ReceiverGuard
  import opened ReceiverRuns

  // ----- A sustained collapse, on the samples themselves

  /** An invocation that collects its sample, and collects it again if it comes to that. */
  predicate Collects(i: Input, policy: Policy) {
    i.first.Some? && i.policy == policy && (i.allowEffect ==> i.recheck.Some?)
  }

  function Window(inputs: seq<Input>): (window: seq<Sample>)
    requires forall k :: 0 <= k < |inputs| ==> inputs[k].first.Some?
    ensures |window| == |inputs| && forall k :: 0 <= k < |window| ==> window[k] == inputs[k].first.value
  {
    if inputs == [] then [] else Window(inputs[..|inputs| - 1]) + [inputs[|inputs| - 1].first.value]
  }

  /** A sample of the episode's own receiver, after the grace and inside the startup window. */
  predicate During(e: Episode, s: Sample, policy: Policy) {
    && s.boot == e.boot && s.instance == e.instance && s.receiver == e.receiver
    && s.startEpoch <= s.sourceNow && s.startEpoch <= s.readsbNow
    && policy.graceSec <= s.mono - e.startMono <= policy.startupWindowSec
  }

  /** The first sample of the collapse is newer than the last one accepted and shows no progress over it. */
  predicate Begins(e: Episode, s: Sample, policy: Policy) {
    e.lastPost.Some? ==>
      var last := e.lastPost.value;
      && last.sourceNow < s.sourceNow && last.readsbNow <= s.readsbNow && last.readsbStart == s.readsbStart
      && (last.positions == s.positions
          || (last.positions < s.positions && s.sourceNow > last.sourceNow + policy.sampleMaxAgeSec))
  }

  /** Long enough, on the source clock and on boottime. */
  predicate Lasts(window: seq<Sample>, policy: Policy) {
    && |window| >= policy.minSamples
    && window[|window| - 1].sourceNow - window[0].sourceNow >= policy.sustainSec
    && window[|window| - 1].mono - window[0].mono >= policy.sustainSec
  }

  /** Nothing forbids the restart at the last sample, and the sample collected again confirms the collapse. */
  predicate Cleared(state: State, i: Input, baseline: Baseline, policy: Policy)
    requires i.first.Some?
  {
    var s := i.first.value;
    && i.allowEffect && s.lostBuffers == 0.0
    && (state.lastRestart.Some? && state.lastRestart.value.boot == s.boot ==>
          s.mono - state.lastRestart.value.mono >= policy.cooldownSec)
    && i.recheck.Some?
    && var check := i.recheck.value;
       && check.boot == s.boot && check.instance == s.instance && check.receiver == s.receiver
       && Collapsed(check, baseline, policy) && check.positions <= s.positions && check.lostBuffers == 0.0
  }

  predicate Collapse(w: World, inputs: seq<Input>, policy: Policy) {
    && w.disk.episode.Some? && w.disk.episode.value.attempts == 0 && w.disk.episode.value.baseline.Some?
    && inputs != [] && (forall k :: 0 <= k < |inputs| ==> Collects(inputs[k], policy))
    && var e, window := w.disk.episode.value, Window(inputs);
       && (forall k :: 0 <= k < |window| ==> During(e, window[k], policy))
       && (forall k :: 0 < k < |window| ==> window[k - 1].readsbNow <= window[k].readsbNow)
       && Run(window, e.baseline.value, policy) && Begins(e, window[0], policy)
       && (forall t :: t in w.trail && t.boot == e.boot ==> t.mono <= window[0].mono)
  }

  /** The collapse has lasted long enough, and its last sample may restart and is confirmed. */
  predicate Completes(w: World, inputs: seq<Input>, policy: Policy)
    requires Collapse(w, inputs, policy)
  {
    && Lasts(Window(inputs), policy)
    && Cleared(w.disk, inputs[|inputs| - 1], w.disk.episode.value.baseline.value, policy)
  }

  /** Whole invocations, none of them cut short. */
  function Whole(inputs: seq<Input>): (steps: seq<Step>)
    ensures |steps| == |inputs| && forall k :: 0 <= k < |steps| ==> steps[k] == Step(inputs[k], 4)
  {
    if inputs == [] then [] else Whole(inputs[..|inputs| - 1]) + [Step(inputs[|inputs| - 1], 4)]
  }

  // ----- What one more sample of the collapse leaves

  /** The evidence reaches back to `s` or further. */
  predicate Reaches(bad: seq<BadEntry>, s: Sample) {
    bad != [] ==> bad[0].sourceNow <= s.sourceNow && bad[0].mono <= s.mono
  }

  /** The episode after some samples of the collapse without a restart. */
  predicate Gathers(f: Episode, e: Episode, window: seq<Sample>, policy: Policy)
    requires window != []
  {
    && f.attempts == 0 && f.retryStartMono.None? && f.baseline == e.baseline && f.startMono == e.startMono
    && f.boot == e.boot && f.instance == e.instance && f.receiver == e.receiver && f.policy == policy
    && f.lastPost == Some(window[|window| - 1]) && f.lastSource == Some(window[|window| - 1].sourceNow)
    && |f.bad| >= |window| && Reaches(f.bad, window[0])
  }

  predicate Restarts(plan: Plan, i: Input) {
    && i.recheck.Some? && |plan.effects| <= 4 && RestartCalled in plan.effects
    && plan.reserved.Some? && plan.reserved.value.baseline.Some?
  }

  /** The plan saves one state and nothing else: the episode after one more sample. */
  predicate Saves(plan: Plan, state: State, f: Episode) {
    && plan.reserved.None? && |plan.effects| == 1 && plan.effects[0].Saved?
    && plan.effects[0].state.episode.Some?
    && plan.effects[0].state.episode == Some(f.(status := plan.effects[0].state.episode.value.status))
    && plan.effects[0].state.lastRestart == state.lastRestart
  }

  /** The episode that the sample is assessed against, with the evidence it keeps. */
  function Kept(f: Episode, s: Sample, policy: Policy): Episode {
    var bound := if f.policy == policy then f else f.(policy := policy, bad := []);
    if Gap(bound, s) then bound.(bad := []) else bound
  }

  predicate Meets(f: Episode, s: Sample, policy: Policy) {
    && f.attempts == 0 && f.retryStartMono.None? && f.baseline.Some? && During(f, s, policy) && Begins(f, s, policy)
    && f.lastSource == (if f.lastPost.Some? then Some(f.lastPost.value.sourceNow) else None)
    && Collapsed(s, f.baseline.value, policy)
  }

  lemma SampleIsAssessed(state: State, f: Episode, i: Input, policy: Policy)
    requires state.episode == Some(f) && Collects(i, policy) && Meets(f, i.first.value, policy)
    ensures
      var before := if f.policy == policy then f else f.(policy := policy, bad := []);
      Observe(state, i) == Assess(state, before, i.first.value, i)
  {
    hide Assess, Collapsed;
  }

  lemma OneMoreSample(state: State, f: Episode, i: Input, policy: Policy)
    requires state.episode == Some(f) && Collects(i, policy) && Meets(f, i.first.value, policy)
    ensures
      var s, plan := i.first.value, Observe(state, i);
      var g := AddBad(Kept(f, s, policy).(good := 0, lastSource := Some(s.sourceNow), lastPost := Some(s)), s);
      && (Saves(plan, state, g) || Restarts(plan, i))
      && (LongEnough(g.bad, s, policy) && Cleared(state, i, f.baseline.value, policy) ==> Restarts(plan, i))
  {
    hide Observe, RecentRows;
    SampleIsAssessed(state, f, i, policy);
  }

  predicate LongEnough(bad: seq<BadEntry>, s: Sample, policy: Policy) {
    && |bad| >= policy.minSamples
    && s.sourceNow - bad[0].sourceNow >= policy.sustainSec && s.mono - bad[0].mono >= policy.sustainSec
  }

  // ----- Over the run

  /** The first attempt made after `w` called the restart. */
  predicate CallsRestart(w: World, after: World) {
    |after.attempts| > |w.attempts| && after.attempts[|w.attempts|].restarted
  }

  predicate Going(w: World, after: World, window: seq<Sample>, policy: Policy)
    requires w.disk.episode.Some? && window != []
  {
    && after.attempts == w.attempts && after.disk.lastRestart == w.disk.lastRestart && after.disk.episode.Some?
    && Gathers(after.disk.episode.value, w.disk.episode.value, window, policy)
  }

  lemma PerformWhole(w: World, i: Input)
    requires i.first.Some?
    ensures
      var plan, next := Observe(w.disk, i), Perform(w, Step(i, 4));
      && w.attempts <= next.attempts
      && (Restarts(plan, i) ==> CallsRestart(w, next))
      && (forall f :: Saves(plan, w.disk, f) ==>
            next.attempts == w.attempts && next.disk == plan.effects[0].state)
  {
    hide Observe, Bind;
  }

  lemma RunsExtend(steps: seq<Step>, inputs: seq<Input>, n: nat)
    requires n < |inputs|
    ensures Runs(steps + Whole(inputs[..n + 1])) == Perform(Runs(steps + Whole(inputs[..n])), Step(inputs[n], 4))
  {
    hide Perform;
    assert inputs[..n + 1][..n] == inputs[..n];
    var all := steps + Whole(inputs[..n + 1]);
    assert all[..|all| - 1] == steps + Whole(inputs[..n]);
  }

  /** The evidence that a safe episode already holds is older than a first sample after it. */
  lemma {:induction false} OlderEvidence(window: seq<Sample>, baseline: Baseline, policy: Policy)
    requires Run(window, baseline, policy) && window != []
    ensures window[0].sourceNow <= window[|window| - 1].sourceNow && window[0].boot == window[|window| - 1].boot
    decreases |window|
  {
    if |window| > 1 {
      assert Run(window[..|window| - 1], baseline, policy);
      OlderEvidence(window[..|window| - 1], baseline, policy);
      assert Continues(window[|window| - 2], window[|window| - 1], policy);
    }
  }

  lemma EvidenceReaches(w: World, e: Episode, s: Sample, policy: Policy)
    requires PostOk(e, w.trail) && BadOk(e, w.trail) && Begins(e, s, policy)
    requires forall t :: t in w.trail && t.boot == e.boot ==> t.mono <= s.mono
    ensures Reaches(e.bad, s)
  {
    if e.bad != [] {
      var window := Suffix(w.trail, |e.bad|);
      OlderEvidence(window, e.baseline.value, e.policy);
      assert window[0] in w.trail;
    }
  }

  lemma FirstSample(w: World, inputs: seq<Input>, policy: Policy)
    requires Safe(w) && Collapse(w, inputs, policy)
    ensures
      var e, s := w.disk.episode.value, inputs[0].first.value;
      Meets(e, s, policy) && Reaches(e.bad, s)
  {
    hide Run, Records;
    var e, s := w.disk.episode.value, Window(inputs)[0];
    EpisodeParts(e, w.trail, w.attempts, w.session, w.episodes);
    EvidenceReaches(w, e, s, policy);
    FirstCollapsed(Window(inputs), e.baseline.value, policy);
  }

  lemma FirstCollapsed(window: seq<Sample>, baseline: Baseline, policy: Policy)
    requires Run(window, baseline, policy) && window != []
    ensures Collapsed(window[0], baseline, policy)
  {
  }

  lemma NextSample(w: World, f: Episode, inputs: seq<Input>, n: nat, policy: Policy)
    requires Collapse(w, inputs, policy) && 0 < n < |inputs|
    requires Gathers(f, w.disk.episode.value, Window(inputs)[..n], policy)
    ensures
      var s := inputs[n].first.value;
      Meets(f, s, policy) && Kept(f, s, policy) == f
  {
    var window := Window(inputs);
    assert Continues(window[n - 1], window[n], policy);
    assert Collapsed(window[n - 1], w.disk.episode.value.baseline.value, policy);
  }

  /** After each sample of the collapse the restart was called, or all the evidence is still there. */
  lemma {:induction false} GathersOrRestarts(steps: seq<Step>, inputs: seq<Input>, policy: Policy, n: nat)
    requires Collapse(Runs(steps), inputs, policy) && 0 < n <= |inputs|
    ensures
      var w, after := Runs(steps), Runs(steps + Whole(inputs[..n]));
      && w.attempts <= after.attempts
      && (CallsRestart(w, after) || Going(w, after, Window(inputs)[..n], policy))
      && (n == |inputs| && Completes(w, inputs, policy) ==> CallsRestart(w, after))
    decreases n
  {
    hide Runs, Perform, Observe, Run, Collapsed, Safe, Meets, Cleared, Kept;
    var w, before := Runs(steps), Runs(steps + Whole(inputs[..n - 1]));
    var i := inputs[n - 1];
    RunsExtend(steps, inputs, n - 1);
    if n == 1 {
      assert steps + Whole(inputs[..0]) == steps;
      RunsAreSafe(steps);
      FirstSample(w, inputs, policy);
    } else {
      GathersOrRestarts(steps, inputs, policy, n - 1);
    }
    PerformWhole(before, i);
    if !CallsRestart(w, before) {
      var f := before.disk.episode.value;
      if n > 1 {
        NextSample(w, f, inputs, n - 1, policy);
      }
      OneMoreSample(before.disk, f, i, policy);
      if !Restarts(Observe(before.disk, i), i) {
        var saved := Observe(before.disk, i).effects[0].state.episode.value;
        Gathered(f, w.disk.episode.value, Window(inputs), n, policy, saved.status);
      }
      ClearedAlike(w.disk, before.disk, i, f.baseline.value, policy);
    }
  }

  /** The evidence after the `n`-th sample. */
  lemma Gathered(f: Episode, e: Episode, window: seq<Sample>, n: nat, policy: Policy, status: Option<Status>)
    requires 0 < n <= |window| && e.baseline.Some?
    requires if n == 1 then Meets(e, window[0], policy) && Reaches(e.bad, window[0]) && f == e
             else Gathers(f, e, window[..n - 1], policy) && Kept(f, window[n - 1], policy) == f
    ensures
      var s := window[n - 1];
      var g := AddBad(Kept(f, s, policy).(good := 0, lastSource := Some(s.sourceNow), lastPost := Some(s)), s);
      Gathers(g.(status := status), e, window[..n], policy)
  {
    hide Collapsed, Begins;
  }

  lemma ClearedAlike(a: State, b: State, i: Input, baseline: Baseline, policy: Policy)
    requires a.lastRestart == b.lastRestart && i.first.Some?
    ensures Cleared(a, i, baseline, policy) == Cleared(b, i, baseline, policy)
  {
  }

  /** From any reachable state with an unspent episode and a baseline, whole invocations that collect a sustained
      collapse, the last of which may restart and is confirmed, call the restart. */
  lemma CollapseIsRestarted(steps: seq<Step>, inputs: seq<Input>, policy: Policy)
    requires Collapse(Runs(steps), inputs, policy) && Completes(Runs(steps), inputs, policy)
    ensures CallsRestart(Runs(steps), Runs(steps + Whole(inputs)))
  {
    hide Runs, Whole, Collapse, Completes;
    assert inputs != [] by {
      CollapseHasSamples(Runs(steps), inputs, policy);
    }
    assert inputs[..|inputs|] == inputs;
    GathersOrRestarts(steps, inputs, policy, |inputs|);
  }

  lemma CollapseHasSamples(w: World, inputs: seq<Input>, policy: Policy)
    requires Collapse(w, inputs, policy)
    ensures inputs != []
  {
  }

  // ----- What an observation tells

  /** The position counter moved on the last accepted sample, without a gap. */
  predicate Moves(e: Episode, s: Sample) {
    && e.lastPost.Some? && s.sourceNow <= e.lastPost.value.sourceNow + e.policy.sampleMaxAgeSec
    && e.lastPost.value.positions < s.positions
  }

  predicate GoodTwice(e: Episode, s: Sample) {
    e.good > 0 && s.freshPositions > 0 && Moves(e, s)
  }

  /** A gap in the source since the last accepted sample. */
  predicate Breaks(e: Episode, s: Sample) {
    e.lastPost.Some? && s.sourceNow > e.lastPost.value.sourceNow + e.policy.sampleMaxAgeSec
  }

  /** With this sample the collapse has lasted long enough on both clocks. */
  predicate Sustains(e: Episode, s: Sample)
    requires e.baseline.Some?
  {
    var held := if Breaks(e, s) then [] else e.bad;
    && s.freshPositions == 0 && !Moves(e, s) && s.rate / e.baseline.value.rate < e.policy.rateRatio
    && held != [] && |held| + 1 >= e.policy.minSamples
    && s.sourceNow - held[0].sourceNow >= e.policy.sustainSec && s.mono - held[0].mono >= e.policy.sustainSec
  }

  /** Reception is being watched: after the grace, on a baseline, and not after a completed startup. */
  predicate Watched(e: Episode, s: Sample) {
    && s.mono - (if e.retryStartMono.Some? then e.retryStartMono.value else e.startMono) >= e.policy.graceSec
    && e.baseline.Some? && !(e.phase == Healthy && s.mono - e.startMono > e.policy.startupWindowSec)
  }

  /** Exactly what an assessed sample tells: reception is confirmed by the second good sample in a row, and while it is
      watched another decoder or a sustained collapse raises the alert. */
  lemma TellsExactlyWhen(steps: seq<Step>, i: Input)
    requires i.first.Some? && Assessed(Runs(steps).disk, i)
    ensures
      var w, s := Runs(steps), i.first.value;
      var e, status := Current(w.disk, i), Observe(w.disk, i).status;
      && (status.confirmed <==> GoodTwice(e, s)) && (status.confirmed <==> status == Status("HEALTHY", false, true))
      && (status.alert <==>
            !GoodTwice(e, s) && Watched(e, s) && (s.readsbStart != e.baseline.value.readsbStart || Sustains(e, s)))
  {
    hide Runs, Observe, Current, Safe;
    var w := Runs(steps);
    RunsAreSafe(steps);
    AssessedAdvances(w, i);
    CurrentKeeps(w, i);
    AssessTells(w.disk, Current(w.disk, i), i.first.value, i, w.trail);
  }

  lemma AssessTells(state: State, e: Episode, s: Sample, i: Input, trail: seq<Sample>)
    requires PostOk(e, trail)
    ensures
      var status := Assess(state, e, s, i).status;
      && (status.confirmed <==> GoodTwice(e, s)) && (status.confirmed <==> status == Status("HEALTHY", false, true))
      && (status.alert <==>
            !GoodTwice(e, s) && Watched(e, s) && (s.readsbStart != e.baseline.value.readsbStart || Sustains(e, s)))
  {
    hide Recover, Remember;
    RecoverTells(state, e, s, i);
  }

  lemma RecoverTells(state: State, before: Episode, s: Sample, i: Input)
    ensures before.baseline.Some? ==>
      var status := Recover(state, AddBad(Accept(before, s), s), s, i).status;
      status.alert && !status.confirmed
  {
    hide Remember, Accept;
  }

  const Refusal := Status("UNKNOWN", true, false)

  const Waiting := Status("STARTING", false, false)

  /** What is told of a sample that is not assessed, and the evidence that then stands: another receiver, a source that
      went back or another decoder's counters are refused and drop it, a source from before the start is waited for, and
      a snapshot read again is told as before.  A collection that fails drops it too. */
  lemma RefusesExactly(steps: seq<Step>, i: Input)
    requires i.first.Some? ==> !Assessed(Runs(steps).disk, i)
    ensures
      var w := Runs(steps);
      var plan := Observe(w.disk, i);
      && |plan.effects| == 1 && plan.effects[0].Saved? && plan.reserved.None?
      && var kept := plan.effects[0].state.episode;
         if i.first.None? then
           && plan.status == (if i.serviceStarting then Waiting else Refusal) && !plan.accepted
           && (kept.Some? <==> w.disk.episode.Some?)
           && (kept.Some? ==>
                 var told := w.disk.episode.value.status;
                 kept.value.status == Some(Status("UNKNOWN", told.Some? && told.value.alert, false)))
           && (kept.Some? ==> kept.value.bad == [] && kept.value.good == 0 && kept.value.lastPost.None?
                              && kept.value.lastSource.None? && kept.value.attempts == w.disk.episode.value.attempts)
         else
           var s, e := i.first.value, Current(w.disk, i);
           && kept.Some? && kept.value.attempts == e.attempts
           && (plan.accepted <==> kept.value.lastPost == Some(s) && e.lastPost != Some(s))
           && if s.receiver != e.receiver then plan.status == Refusal && kept.value.bad == []
              else if s.sourceNow < s.startEpoch || s.readsbNow < s.startEpoch then
                plan.status == Waiting && kept.value == e
              else if e.lastSource == Some(s.sourceNow) then
                && kept.value == e
                && plan.status == if e.status.None? then Waiting
                                  else e.status.value.(confirmed := e.status.value.confirmed && s.freshPositions > 0)
              else
                && plan.status == Refusal
                && kept.value ==
                     if Behind(e, s) then
                       e.(bad := [], good := 0,
                          status := if e.status.None? then None else Some(e.status.value.(confirmed := false)))
                     else e.(bad := [], good := 0, lastPost := Some(s), lastSource := Some(s.sourceNow))
  {
    hide Runs, BaselineFor, Assess, BadOk, SpentOk, UnspentOk;
    RunsAreSafe(steps);
    if i.first.Some? {
      CurrentKeeps(Runs(steps), i);
    }
  }

  /** Reading one snapshot twice tells the episode's last status again, whatever was told of the snapshot itself: one
      refused because its counters are another decoder's is told as confirmed the second time exactly when the status
      before it was confirmed and it holds fresh positions. */
  lemma RefusedSnapshotRetold(steps: seq<Step>, i: Input)
    requires i.first.Some?
    requires
      var s, e := i.first.value, Current(Runs(steps).disk, i);
      && s.receiver == e.receiver && s.startEpoch <= s.sourceNow && s.startEpoch <= s.readsbNow
      && e.lastSource != Some(s.sourceNow) && e.status.Some?
      && !Behind(e, s) && Recounted(e, s)
    ensures
      var w, s := Runs(steps), i.first.value;
      var e, again := Current(w.disk, i), Perform(w, Step(i, 4));
      && Observe(w.disk, i).status == Status("UNKNOWN", true, false)
      && Observe(again.disk, i).status == e.status.value.(confirmed := e.status.value.confirmed && s.freshPositions > 0)
  {
    hide Runs, Observe, Perform, Current, Safe;
    var w := Runs(steps);
    RunsAreSafe(steps);
    CurrentKeeps(w, i);
    RefusesExactly(steps, i);
    SavedOnly(w, i);
    JudgedByPolicy(w.disk, i);
    ReadAgain(Perform(w, Step(i, 4)).disk, i);
  }

  lemma JudgedByPolicy(disk: State, i: Input)
    requires i.first.Some?
    ensures Current(disk, i).policy == i.policy
  {
    hide BaselineFor;
  }

  lemma SavedOnly(w: World, i: Input)
    requires |Observe(w.disk, i).effects| == 1 && Observe(w.disk, i).effects[0].Saved?
    ensures Perform(w, Step(i, 4)).disk == Observe(w.disk, i).effects[0].state
  {
    hide Observe;
  }

  /** The snapshot is the last one that the episode saw. */
  lemma ReadAgain(disk: State, i: Input)
    requires i.first.Some? && disk.episode.Some?
    requires
      var s, e := i.first.value, disk.episode.value;
      && e.boot == s.boot && e.instance == s.instance && e.receiver == s.receiver && e.policy == i.policy
      && s.startEpoch <= s.sourceNow && s.startEpoch <= s.readsbNow
      && e.lastSource == Some(s.sourceNow) && e.status.Some?
    ensures
      var s, told := i.first.value, disk.episode.value.status.value;
      Observe(disk, i).status == told.(confirmed := told.confirmed && s.freshPositions > 0)
  {
    hide Assess, BaselineFor;
  }

  /** A sample that counts as good: fresh positions, and a counter that moved or that is seen for the first time. */
  predicate IsGood(e: Episode, s: Sample) {
    s.freshPositions > 0 && (e.lastPost.None? || Moves(e, s))
  }

  /** `s` follows `last` in one invocation, under one decoder and one policy, with fresh positions and a counter that
      moved. */
  predicate Continued(last: Sample, s: Sample, policy: Policy) {
    && s.boot == last.boot && s.instance == last.instance && s.receiver == last.receiver
    && s.startEpoch <= s.sourceNow && s.startEpoch <= s.readsbNow
    && last.sourceNow < s.sourceNow <= last.sourceNow + policy.sampleMaxAgeSec && last.readsbNow <= s.readsbNow
    && last.readsbStart == s.readsbStart && last.positions < s.positions && s.freshPositions > 0
  }

  /** From any reachable state two good samples in a row are told as confirmed reception. */
  lemma GoodPairIsConfirmed(steps: seq<Step>, i: Input, next: Input)
    requires i.first.Some? && next.first.Some? && next.policy == i.policy
    requires Assessed(Runs(steps).disk, i) && IsGood(Current(Runs(steps).disk, i), i.first.value)
    requires Continued(i.first.value, next.first.value, i.policy)
    ensures Observe(Runs(steps + [Step(i, 4)]).disk, next).status == Status("HEALTHY", false, true)
  {
    hide Runs, Observe, Safe, Perform, Current, Assessed;
    var w := Runs(steps);
    assert (steps + [Step(i, 4)])[..|steps|] == steps;
    assert Runs(steps + [Step(i, 4)]) == Perform(w, Step(i, 4)) by {
      OneMoreStep(steps, Step(i, 4));
    }
    RunsAreSafe(steps);
    RunsAreSafe(steps + [Step(i, 4)]);
    GoodSampleKept(w, i);
    var after := Perform(w, Step(i, 4));
    NextIsAssessed(after.disk, i, next);
    TellsExactlyWhen(steps + [Step(i, 4)], next);
  }

  lemma OneMoreStep(steps: seq<Step>, step: Step)
    ensures Runs(steps + [step]) == Perform(Runs(steps), step)
  {
    hide Perform;
    assert (steps + [step])[..|steps|] == steps;
  }

  predicate Keeps(disk: State, i: Input)
    requires i.first.Some?
  {
    && disk.episode.Some?
    && var f, s := disk.episode.value, i.first.value;
       && f.good > 0 && f.lastPost == Some(s) && f.lastSource == Some(s.sourceNow) && f.policy == i.policy
       && f.boot == s.boot && f.instance == s.instance && f.receiver == s.receiver
  }

  lemma GoodSampleKept(w: World, i: Input)
    requires Safe(w) && i.first.Some? && Assessed(w.disk, i) && IsGood(Current(w.disk, i), i.first.value)
    ensures Keeps(Perform(w, Step(i, 4)).disk, i)
  {
    hide Observe, Safe, Bind, EpisodeOk, Assess, Advances, Moves;
    CurrentKeeps(w, i);
    AssessedAdvances(w, i);
    var e, plan := Current(w.disk, i), Observe(w.disk, i);
    GoodAssessed(w.disk, e, i.first.value, i);
    assert Done(plan, 4) == plan.effects == [plan.effects[0]];
    assert LastSaved(w.disk, plan.effects) == plan.effects[0].state;
  }

  lemma GoodAssessed(state: State, e: Episode, s: Sample, i: Input)
    requires IsGood(e, s)
    ensures
      var plan := Assess(state, e, s, i);
      && |plan.effects| == 1 && plan.effects[0].Saved? && plan.effects[0].state.episode.Some?
      && var f := plan.effects[0].state.episode.value;
         && f.good > 0 && f.lastPost == Some(s) && f.lastSource == Some(s.sourceNow) && f.policy == e.policy
         && f.boot == e.boot && f.instance == e.instance && f.receiver == e.receiver
  {
    hide Assess, Accept, RecentRows;
    var g, status := GoodFinishes(state, e, s, i);
    AcceptedGood(e, s);
  }

  lemma GoodFinishes(state: State, e: Episode, s: Sample, i: Input) returns (g: Episode, status: Status)
    requires s.freshPositions > 0
    ensures Assess(state, e, s, i) == Finish(state, g, s, i, status)
    ensures g == Accept(e, s).(phase := g.phase, bad := g.bad)
  {
    hide Accept, Finish, Recover;
    var f := Accept(e, s);
    status := Assess(state, e, s, i).status;
    if f.good >= 2 {
      g := f.(phase := Healthy, bad := []);
    } else if Elapsed(f, s) >= f.policy.graceSec && (f.baseline.None?
        || (!(f.phase == Healthy && s.mono - f.startMono > f.policy.startupWindowSec)
            && s.readsbStart != f.baseline.value.readsbStart)) {
      g := f;
    } else {
      g := f.(bad := []);
    }
    FinishTells(state, g, s, i);
  }

  lemma FinishTells(state: State, g: Episode, s: Sample, i: Input)
    ensures forall status :: Finish(state, g, s, i, status).status == status
  {
    hide Remember;
  }

  lemma AcceptedGood(e: Episode, s: Sample)
    requires IsGood(e, s)
    ensures
      var f := Accept(e, s);
      && f.good > 0 && f.lastPost == Some(s) && f.lastSource == Some(s.sourceNow) && f.policy == e.policy
      && f.boot == e.boot && f.instance == e.instance && f.receiver == e.receiver
  {
  }

  lemma NextIsAssessed(disk: State, i: Input, next: Input)
    requires i.first.Some? && next.first.Some? && next.policy == i.policy && Keeps(disk, i)
    requires Continued(i.first.value, next.first.value, i.policy)
    ensures Assessed(disk, next) && GoodTwice(Current(disk, next), next.first.value)
  {
  }

  // ----- Which episode a sample belongs to, and what is remembered

  /** The sample opens an episode: there is none, or it is of another boot, or of a new invocation while the restart is
      unspent or reception has recovered. */
  predicate StartsAnew(state: State, s: Sample) {
    || state.episode.None? || s.boot != state.episode.value.boot
    || (s.instance != state.episode.value.instance
        && (state.episode.value.attempts == 0 || state.episode.value.phase == Healthy))
  }

  /** Exactly which episode a sample is judged against in any run: a new one on the baseline of the rows before it, the
      spent origin's with its evidence dropped, or the one held, whose evidence only another policy drops. */
  lemma JudgedAgainst(steps: seq<Step>, i: Input)
    requires i.first.Some?
    ensures
      var disk, s, e := Runs(steps).disk, i.first.value, Current(Runs(steps).disk, i);
      && (StartsAnew(disk, s) <==> OpensEpisode(disk, s))
      && if StartsAnew(disk, s) then
           e == Episode(s.boot, s.instance, s.instance, s.startMono, None, BaselineFor(disk.history, s, i.policy), 0,
                        Starting, [], 0, s.receiver, None, None, i.policy, None)
         else
           var held := disk.episode.value;
           if s.instance != held.instance then
             e == held.(instance := s.instance, retryStartMono := Some(s.startMono), phase := Verifying, bad := [],
                        good := 0, lastSource := None, lastPost := None, policy := i.policy)
           else e == held.(policy := i.policy, bad := if held.policy == i.policy then held.bad else [])
  {
    hide Runs, BaselineFor;
    BudgetIsValid(steps);
  }

  /** A sample is remembered once a snapshot; then the last 32 of the recent rows are kept. */
  lemma RemembersExactly(state: State, s: Sample, policy: Policy)
    ensures
      var before, kept := state.history, Remember(state, s, policy).history;
      var n := |before|;
      var repeated := n > 0 && before[n - 1].sourceNow == s.sourceNow && before[n - 1].boot == s.boot;
      var rows := RecentRows(if repeated then before else before + [s], s, policy);
      && |kept| == (if |rows| <= 32 then |rows| else 32) && kept == rows[|rows| - |kept|..]
      && Remember(state, s, policy) == state.(history := kept, last := Some(s))
  {
  }

  // ----- What is recorded of a restart

  /** How the reply of the restart is recorded. */
  function Verdict(reply: RestartReply): Phase {
    match reply
    case Returned(code) => if code == 0 then Verifying else RestartFailed
    case RaisedRestart => OutcomeUnknown
  }

  /** In every run, after each effect of a reservation the disk holds the spent budget and the time of the restart; the
      reply is there from the save after the call, and the alert from the last. */
  lemma RestartIsRecorded(steps: seq<Step>, step: Step)
    requires step.input.first.Some? && step.done > 0 && Observe(Runs(steps).disk, step.input).reserved.Some?
    ensures
      var s, disk := step.input.first.value, Perform(Runs(steps), step).disk;
      && disk.lastRestart == Some(Restarted(s.mono, s.boot)) && disk.episode.Some?
      && var e := disk.episode.value;
         && e.attempts == 1 && e.bad == [] && e.good == 0
         && e.phase == (if step.done <= 2 then RestartReserved else Verdict(step.input.restart))
         && (step.done > 3 ==> e.status == Some(Observe(Runs(steps).disk, step.input).status))
  {
    hide Runs, Perform, Observe, Safe, Assess, Remember;
    var w, i := Runs(steps), step.input;
    RunsAreSafe(steps);
    if !Assessed(w.disk, i) {
      RefusesExactly(steps, i);
    }
    AssessedAdvances(w, i);
    ReserveShape(w.disk, Current(w.disk, i), i.first.value, i);
    ReservedDisk(w, step, AddBad(Accept(Current(w.disk, i), i.first.value), i.first.value));
  }

  lemma ReservedDisk(w: World, step: Step, e: Episode)
    requires step.input.first.Some? && step.done > 0
    requires Observe(w.disk, step.input) == Reserve(w.disk, e, step.input.first.value, step.input)
    ensures
      var s, disk := step.input.first.value, Perform(w, step).disk;
      && disk.lastRestart == Some(Restarted(s.mono, s.boot)) && disk.episode.Some?
      && var f := disk.episode.value;
         && f.attempts == 1 && f.bad == [] && f.good == 0
         && f.phase == (if step.done <= 2 then RestartReserved else Verdict(step.input.restart))
         && (step.done > 3 ==> f.status == Some(Observe(w.disk, step.input).status))
  {
    hide Observe, RecentRows;
    var all := Reserve(w.disk, e, step.input.first.value, step.input).effects;
    if step.done == 2 {
      assert all[..2][..1] == [all[0]] && LastSaved(w.disk, [all[0]]) == all[0].state;
    }
  }
}
