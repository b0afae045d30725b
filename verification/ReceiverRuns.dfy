/** Every run of the receiver guard, with a crash allowed after any durable effect. */
module ReceiverRuns {
  import opened Options
  import opened ReceiverGuard

  // ----- Runs

  /** A durable restart attempt and what it rested on.  `at` is how many samples had been accepted by then. */
  datatype Attempt = Attempt(
    sample: Sample, recheck: Sample, policy: Policy, baseline: Baseline, startMono: real,
    window: seq<Sample>, episode: nat, session: nat, at: nat, restarted: bool)

  /** `trail` holds the accepted samples; `session` counts reboots and `episodes` the episodes opened. */
  datatype World = World(disk: State, trail: seq<Sample>, session: nat, episodes: nat, attempts: seq<Attempt>)

  const INITIAL_WORLD := World(INITIAL_STATE, [], 0, 0, [])

  /** One invocation that crashes after `done` of its effects, or runs to its end. */
  datatype Step = Step(input: Input, done: nat)

  function LastSaved(disk: State, effects: seq<Effect>): State {
    if effects == [] then disk
    else match effects[|effects| - 1]
      case Saved(state) => state
      case RestartCalled => LastSaved(disk, effects[..|effects| - 1])
  }

  function Done(plan: Plan, done: nat): seq<Effect> {
    if done < |plan.effects| then plan.effects[..done] else plan.effects
  }

  function Suffix(trail: seq<Sample>, n: nat): seq<Sample> {
    if n <= |trail| then trail[|trail| - n..] else trail
  }

  function Perform(w: World, step: Step): World {
    var i := step.input;
    var plan := Observe(w.disk, i);
    var effects := Done(plan, step.done);
    if effects == [] then w
    else if i.first.None? then w.(disk := LastSaved(w.disk, effects))
    else
      var s := i.first.value;
      var trail := if plan.accepted then w.trail + [s] else w.trail;
      var session := w.session + (if Reboots(w.disk, s) then 1 else 0);
      var episodes := w.episodes + (if OpensEpisode(w.disk, s) then 1 else 0);
      World(LastSaved(w.disk, effects), trail, session, episodes,
            w.attempts + NewAttempts(plan, i, s, trail, session, episodes, RestartCalled in effects))
  }

  function NewAttempts(plan: Plan, i: Input, s: Sample, trail: seq<Sample>,
      session: nat, episodes: nat, restarted: bool)
    : (r: seq<Attempt>)
    ensures |r| <= 1
  {
    if plan.reserved.None? || plan.reserved.value.baseline.None? || i.recheck.None? then []
    else
      var e := plan.reserved.value;
      [Attempt(s, i.recheck.value, e.policy, e.baseline.value, e.startMono, Suffix(trail, |e.bad|), episodes, session,
               |trail|, restarted)]
  }

  function Runs(steps: seq<Step>): World {
    if steps == [] then INITIAL_WORLD
    else Perform(Runs(steps[..|steps| - 1]), steps[|steps| - 1])
  }

  // ----- What justifies an attempt, stated on the samples themselves

  predicate Collapsed(s: Sample, baseline: Baseline, policy: Policy) {
    s.freshPositions == 0 && s.rate / baseline.rate < policy.rateRatio && s.readsbStart == baseline.readsbStart
  }

  /** Neighbours of one continuous collapse: one invocation, a moving source clock and a stuck position counter. */
  predicate Continues(a: Sample, b: Sample, policy: Policy) {
    && a.boot == b.boot && a.instance == b.instance
    && a.sourceNow < b.sourceNow <= a.sourceNow + policy.sampleMaxAgeSec
    && a.positions == b.positions
  }

  predicate Run(window: seq<Sample>, baseline: Baseline, policy: Policy) {
    && (forall k :: 0 <= k < |window| ==> Collapsed(window[k], baseline, policy))
    && (forall k :: 0 < k < |window| ==> Continues(window[k - 1], window[k], policy))
  }

  predicate Justified(a: Attempt) {
    var n := |a.window|;
    && n >= a.policy.minSamples
    && Run(a.window, a.baseline, a.policy)
    && a.window[n - 1] == a.sample
    && a.sample.sourceNow - a.window[0].sourceNow >= a.policy.sustainSec
    && a.sample.mono - a.window[0].mono >= a.policy.sustainSec
    && a.policy.graceSec <= a.sample.mono - a.startMono <= a.policy.startupWindowSec
    && a.sample.lostBuffers == 0.0
    && a.recheck.boot == a.sample.boot && a.recheck.instance == a.sample.instance
    && a.recheck.receiver == a.sample.receiver
    && Collapsed(a.recheck, a.baseline, a.policy)
    && a.recheck.positions <= a.sample.positions && a.recheck.lostBuffers == 0.0
  }

  // ----- Invariant

  /** The evidence entries are the accepted samples that they were made from. */
  predicate Records(bad: seq<BadEntry>, window: seq<Sample>, baseline: Baseline) {
    && |bad| == |window|
    && forall k :: 0 <= k < |bad| ==>
         && bad[k].sourceNow == window[k].sourceNow && bad[k].mono == window[k].mono
         && bad[k].positions == window[k].positions && bad[k].rate == window[k].rate
         && bad[k].ratio == window[k].rate / baseline.rate
  }

  predicate PostOk(e: Episode, trail: seq<Sample>) {
    && e.lastSource == (if e.lastPost.Some? then Some(e.lastPost.value.sourceNow) else None)
    && (e.lastPost.Some? ==>
          && trail != [] && trail[|trail| - 1] == e.lastPost.value
          && e.lastPost.value.boot == e.boot && e.lastPost.value.instance == e.instance)
    && (e.good > 0 ==> e.lastPost.Some? && e.lastPost.value.freshPositions > 0)
  }

  predicate BadOk(e: Episode, trail: seq<Sample>) {
    e.bad != [] ==>
      && e.baseline.Some? && e.lastPost.Some? && |e.bad| <= |trail|
      && Records(e.bad, Suffix(trail, |e.bad|), e.baseline.value)
      && Run(Suffix(trail, |e.bad|), e.baseline.value, e.policy)
  }

  /** Two consecutive accepted samples with fresh positions and a counter that moved. */
  predicate Recovered(trail: seq<Sample>, k: nat) {
    && k + 1 < |trail|
    && trail[k].boot == trail[k + 1].boot && trail[k].instance == trail[k + 1].instance
    && trail[k].freshPositions > 0 && trail[k + 1].freshPositions > 0
    && trail[k].positions < trail[k + 1].positions
    && trail[k].sourceNow < trail[k + 1].sourceNow
  }

  predicate RecoveredBetween(trail: seq<Sample>, from: nat, to: nat) {
    exists k :: from <= k < to && Recovered(trail, k)
  }

  function LastOf(attempts: seq<Attempt>): Attempt
    requires attempts != []
  {
    attempts[|attempts| - 1]
  }

  /** A spent episode belongs to the last attempt, and turned HEALTHY only on recovered samples. */
  predicate SpentOk(e: Episode, trail: seq<Sample>, attempts: seq<Attempt>, session: nat, episodes: nat) {
    e.attempts > 0 ==>
      && e.attempts == 1
      && attempts != []
      && LastOf(attempts).episode == episodes && LastOf(attempts).session == session
      && LastOf(attempts).sample.boot == e.boot
      && LastOf(attempts).at <= |trail|
      && (e.good > 0 ==> LastOf(attempts).at < |trail|)
      && (e.phase == Healthy ==> RecoveredBetween(trail, LastOf(attempts).at, |trail|))
  }

  /** An unspent episode is later than the last attempt; in one session a recovery lies between. */
  predicate UnspentOk(e: Episode, trail: seq<Sample>, attempts: seq<Attempt>, session: nat, episodes: nat) {
    e.attempts == 0 && attempts != [] ==>
      && LastOf(attempts).episode < episodes
      && (LastOf(attempts).session == session ==>
            && LastOf(attempts).sample.boot == e.boot
            && RecoveredBetween(trail, LastOf(attempts).at, |trail|))
  }

  predicate EpisodeOk(e: Episode, trail: seq<Sample>, attempts: seq<Attempt>, session: nat, episodes: nat) {
    && PostOk(e, trail) && BadOk(e, trail)
    && (e.attempts == 0 ==> e.retryStartMono.None?)
    && SpentOk(e, trail, attempts, session, episodes)
    && UnspentOk(e, trail, attempts, session, episodes)
  }

  predicate AttemptOk(a: Attempt, trail: seq<Sample>, session: nat, episodes: nat) {
    && Justified(a)
    && a.episode <= episodes && a.session <= session
    && |a.window| <= a.at <= |trail|
    && a.window == trail[a.at - |a.window|..a.at]
  }

  predicate AttemptsOk(attempts: seq<Attempt>, trail: seq<Sample>, session: nat, episodes: nat) {
    forall k :: 0 <= k < |attempts| ==> AttemptOk(attempts[k], trail, session, episodes)
  }

  predicate LastRestartOk(lastRestart: Option<Restarted>, attempts: seq<Attempt>) {
    lastRestart == (if attempts == [] then None
        else Some(Restarted(LastOf(attempts).sample.mono, LastOf(attempts).sample.boot)))
  }

  /** Consecutive attempts: a later episode, and in one session a cooldown and a recovery apart. */
  predicate Apart(a: Attempt, b: Attempt, trail: seq<Sample>) {
    && a.episode < b.episode && a.session <= b.session && a.at < b.at
    && (a.session == b.session ==>
          && a.sample.boot == b.sample.boot
          && b.sample.mono - a.sample.mono >= b.policy.cooldownSec
          && RecoveredBetween(trail, a.at, b.at))
  }

  predicate Spaced(attempts: seq<Attempt>, trail: seq<Sample>) {
    forall k :: 0 < k < |attempts| ==> Apart(attempts[k - 1], attempts[k], trail)
  }

  predicate Safe(w: World) {
    && (if w.disk.episode.Some?
        then EpisodeOk(w.disk.episode.value, w.trail, w.attempts, w.session, w.episodes)
        else w.attempts == [])
    && LastRestartOk(w.disk.lastRestart, w.attempts)
    && AttemptsOk(w.attempts, w.trail, w.session, w.episodes)
    && Spaced(w.attempts, w.trail)
  }

  // ----- The stages of one observation keep it

  function SessionAfter(w: World, s: Sample): nat {
    w.session + (if Reboots(w.disk, s) then 1 else 0)
  }

  function EpisodesAfter(w: World, s: Sample): nat {
    w.episodes + (if OpensEpisode(w.disk, s) then 1 else 0)
  }

  lemma BindKeeps(w: World, s: Sample, policy: Policy)
    requires Safe(w)
    ensures EpisodeOk(Bind(w.disk, s, policy), w.trail, w.attempts, SessionAfter(w, s), EpisodesAfter(w, s))
    ensures Bind(w.disk, s, policy).boot == s.boot && Bind(w.disk, s, policy).instance == s.instance
  {
    hide Justified, BaselineFor, Run, Records;
    if w.attempts != [] {
      assert AttemptOk(LastOf(w.attempts), w.trail, w.session, w.episodes);
    }
  }

  lemma WithoutEvidence(e: Episode, trail: seq<Sample>, attempts: seq<Attempt>,
      session: nat, episodes: nat, policy: Policy)
    requires EpisodeOk(e, trail, attempts, session, episodes)
    ensures EpisodeOk(e.(bad := []), trail, attempts, session, episodes)
    ensures EpisodeOk(e.(bad := [], policy := policy), trail, attempts, session, episodes)
    ensures EpisodeOk(e.(bad := [], good := 0), trail, attempts, session, episodes)
  {
  }

  lemma Longer(trail: seq<Sample>, s: Sample, from: nat)
    requires RecoveredBetween(trail, from, |trail|)
    ensures RecoveredBetween(trail + [s], from, |trail + [s]|)
  {
    var k :| from <= k < |trail| && Recovered(trail, k);
    assert Recovered(trail + [s], k);
  }

  lemma SuffixGrows(trail: seq<Sample>, s: Sample, n: nat)
    requires n <= |trail|
    ensures Suffix(trail + [s], n + 1) == Suffix(trail, n) + [s]
  {
  }

  /** A new last post without evidence. */
  lemma PostKeeps(e: Episode, s: Sample, trail: seq<Sample>, attempts: seq<Attempt>, session: nat, episodes: nat)
    requires EpisodeOk(e, trail, attempts, session, episodes)
    requires s.boot == e.boot && s.instance == e.instance
    ensures EpisodeOk(Post(e.(bad := [], good := 0), s), trail + [s], attempts, session, episodes)
  {
    hide Justified, Run, Records, Recovered;
    if attempts != [] && RecoveredBetween(trail, LastOf(attempts).at, |trail|) {
      Longer(trail, s, LastOf(attempts).at);
    }
  }

  /** The sample follows the last post on a source clock and counter that did not go back. */
  predicate Advances(e: Episode, s: Sample) {
    && s.boot == e.boot && s.instance == e.instance
    && e.lastSource != Some(s.sourceNow)
    && (e.lastPost.Some? ==>
          && e.lastPost.value.sourceNow < s.sourceNow
          && e.lastPost.value.readsbStart == s.readsbStart
          && e.lastPost.value.positions <= s.positions)
  }

  lemma GoodTwiceRecovers(e: Episode, s: Sample, trail: seq<Sample>)
    requires PostOk(e, trail) && Advances(e, s) && Accept(e, s).good >= 2
    ensures |trail| >= 1 && Recovered(trail + [s], |trail| - 1)
  {
  }

  /** Everything but the evidence after accepting a sample. */
  lemma AcceptKeeps(e: Episode, s: Sample, trail: seq<Sample>, attempts: seq<Attempt>, session: nat, episodes: nat)
    requires EpisodeOk(e, trail, attempts, session, episodes) && Advances(e, s)
    ensures EpisodeOk(Accept(e, s).(bad := []), trail + [s], attempts, session, episodes)
    ensures Accept(e, s).good >= 2 ==>
      EpisodeOk(Accept(e, s).(bad := [], phase := Healthy), trail + [s], attempts, session, episodes)
  {
    hide Justified, Run, Records, Recovered;
    if attempts != [] && RecoveredBetween(trail, LastOf(attempts).at, |trail|) {
      Longer(trail, s, LastOf(attempts).at);
    }
    if Accept(e, s).good >= 2 {
      GoodTwiceRecovers(e, s, trail);
    }
  }

  /** The kept evidence is still a run that ends at the previous post. */
  lemma AddBadKeeps(before: Episode, s: Sample, trail: seq<Sample>)
    requires PostOk(before, trail) && BadOk(before, trail) && Advances(before, s)
    requires before.baseline.Some? && s.readsbStart == before.baseline.value.readsbStart
    requires Low(Accept(before, s), s, Progressing(before, s))
    ensures var e := AddBad(Accept(before, s), s);
      && |e.bad| <= |trail + [s]|
      && Records(e.bad, Suffix(trail + [s], |e.bad|), e.baseline.value)
      && Run(Suffix(trail + [s], |e.bad|), e.baseline.value, e.policy)
  {
    hide Progressing, Records, Run, Low, Suffix;
    var kept := Accept(before, s);
    var baseline := kept.baseline.value;
    var window := Suffix(trail, |kept.bad|);
    SuffixGrows(trail, s, |kept.bad|);
    NoEvidence(trail, baseline, kept.policy);
    LowSampleContinues(before, s, trail);
    RunGrows(window, s, baseline, kept.policy);
    RecordsGrow(kept.bad, window, s, baseline);
  }

  lemma NoEvidence(trail: seq<Sample>, baseline: Baseline, policy: Policy)
    ensures Suffix(trail, 0) == [] && Records([], [], baseline) && Run([], baseline, policy)
  {
  }

  lemma RecordsGrow(bad: seq<BadEntry>, window: seq<Sample>, s: Sample, baseline: Baseline)
    requires Records(bad, window, baseline)
    ensures Records(bad + [BadEntry(s.sourceNow, s.mono, s.rate, s.rate / baseline.rate, s.positions)],
        window + [s], baseline)
  {
  }

  /** A low sample prolongs the collapse that ends at the last post. */
  lemma LowSampleContinues(before: Episode, s: Sample, trail: seq<Sample>)
    requires PostOk(before, trail) && BadOk(before, trail) && Advances(before, s)
    requires before.baseline.Some? && s.readsbStart == before.baseline.value.readsbStart
    requires Low(Accept(before, s), s, Progressing(before, s))
    ensures var kept := Accept(before, s);
      var window := Suffix(trail, |kept.bad|);
      && Collapsed(s, kept.baseline.value, kept.policy)
      && (window != [] && kept.bad != [] ==> Continues(window[|window| - 1], s, kept.policy))
      && (kept.bad == [] ==> window == [])
  {
    hide Records, Run;
  }

  lemma RunGrows(window: seq<Sample>, s: Sample, baseline: Baseline, policy: Policy)
    requires Run(window, baseline, policy) && Collapsed(s, baseline, policy)
    requires window != [] ==> Continues(window[|window| - 1], s, policy)
    ensures Run(window + [s], baseline, policy)
  {
  }

  lemma WithEvidence(e: Episode, trail: seq<Sample>, attempts: seq<Attempt>, session: nat, episodes: nat)
    requires EpisodeOk(e.(bad := []), trail, attempts, session, episodes) && BadOk(e, trail)
    ensures EpisodeOk(e, trail, attempts, session, episodes)
  {
  }

  lemma KeptEvidence(before: Episode, s: Sample, trail: seq<Sample>)
    requires BadOk(before, trail) && PostOk(before, trail) && Advances(before, s)
    requires Accept(before, s).bad != []
    ensures before.baseline.Some? && s.readsbStart == before.baseline.value.readsbStart
  {
    var window := Suffix(trail, |before.bad|);
    assert Collapsed(window[|window| - 1], before.baseline.value, before.policy);
  }

  lemma StatusIsFree(e: Episode, status: Option<Status>, trail: seq<Sample>, attempts: seq<Attempt>,
      session: nat, episodes: nat)
    ensures EpisodeOk(e.(status := status), trail, attempts, session, episodes)
      == EpisodeOk(e, trail, attempts, session, episodes)
  {
  }

  /** A plan that reserves nothing saves at most one state, with a good episode and the same last restart. */
  predicate QuietPlan(plan: Plan, lastRestart: Option<Restarted>, trail: seq<Sample>, attempts: seq<Attempt>,
      session: nat, episodes: nat) {
    && plan.reserved.None?
    && |plan.effects| <= 1
    && (plan.effects != [] ==>
          && plan.effects[0].Saved? && plan.effects[0].state.episode.Some?
          && plan.effects[0].state.lastRestart == lastRestart
          && EpisodeOk(plan.effects[0].state.episode.value, trail, attempts, session, episodes))
  }

  lemma FinishIsQuiet(state: State, e: Episode, s: Sample, i: Input,
                      trail: seq<Sample>, attempts: seq<Attempt>, session: nat, episodes: nat)
    requires EpisodeOk(e, trail, attempts, session, episodes)
    ensures forall status ::
      QuietPlan(Finish(state, e, s, i, status), state.lastRestart, trail, attempts, session, episodes)
  {
    hide EpisodeOk;
    forall status
      ensures QuietPlan(Finish(state, e, s, i, status), state.lastRestart, trail, attempts, session, episodes)
    {
      StatusIsFree(e, Some(status), trail, attempts, session, episodes);
    }
  }

  lemma AssessIsQuiet(state: State, before: Episode, s: Sample, i: Input,
                      trail: seq<Sample>, attempts: seq<Attempt>, session: nat, episodes: nat)
    requires EpisodeOk(before, trail, attempts, session, episodes) && Advances(before, s)
    requires Assess(state, before, s, i).reserved.None?
    ensures QuietPlan(Assess(state, before, s, i), state.lastRestart, trail + [s], attempts, session, episodes)
  {
    hide EpisodeOk, BadOk, Low, Sustained, QuietPlan, Finish, Recover, AddBad;
    EpisodeParts(before, trail, attempts, session, episodes);
    AcceptKeeps(before, s, trail, attempts, session, episodes);
    var e := Accept(before, s);
    if e.bad != [] {
      KeptEvidence(before, s, trail);
    }
    FinishIsQuiet(state, e.(bad := []), s, i, trail + [s], attempts, session, episodes);
    if e.good >= 2 {
      FinishIsQuiet(state, e.(bad := [], phase := Healthy), s, i, trail + [s], attempts, session, episodes);
    }
    if e.baseline.Some? && s.readsbStart == e.baseline.value.readsbStart && Low(e, s, Progressing(before, s)) {
      AddBadIsQuiet(state, before, s, i, trail, attempts, session, episodes);
    }
    assert e.bad == [] ==> e == e.(bad := []);
  }

  lemma EpisodeParts(e: Episode, trail: seq<Sample>, attempts: seq<Attempt>, session: nat, episodes: nat)
    requires EpisodeOk(e, trail, attempts, session, episodes)
    ensures PostOk(e, trail) && BadOk(e, trail) && (e.attempts == 0 ==> e.retryStartMono.None?)
  {
  }

  /** Once the collapse is recorded, every plan but a reservation just finishes. */
  lemma AddBadIsQuiet(state: State, before: Episode, s: Sample, i: Input,
                      trail: seq<Sample>, attempts: seq<Attempt>, session: nat, episodes: nat)
    requires EpisodeOk(before, trail, attempts, session, episodes) && Advances(before, s)
    requires before.baseline.Some? && s.readsbStart == before.baseline.value.readsbStart
    requires Low(Accept(before, s), s, Progressing(before, s))
    ensures var e := AddBad(Accept(before, s), s);
      && EpisodeOk(e, trail + [s], attempts, session, episodes)
      && (forall status :: QuietPlan(Finish(state, e, s, i, status), state.lastRestart,
                                          trail + [s], attempts, session, episodes))
      && (Recover(state, e, s, i).reserved.None? ==>
            QuietPlan(Recover(state, e, s, i), state.lastRestart, trail + [s], attempts, session, episodes))
  {
    hide EpisodeOk, Low;
    EpisodeParts(before, trail, attempts, session, episodes);
    AcceptKeeps(before, s, trail, attempts, session, episodes);
    AddBadKeeps(before, s, trail);
    var e := AddBad(Accept(before, s), s);
    assert BadOk(e, trail + [s]) by {
      AddedBadOk(before, s, trail);
    }
    assert e.(bad := []) == Accept(before, s).(bad := []);
    WithEvidence(e, trail + [s], attempts, session, episodes);
    FinishIsQuiet(state, e, s, i, trail + [s], attempts, session, episodes);
  }

  lemma AddedBadOk(before: Episode, s: Sample, trail: seq<Sample>)
    requires PostOk(before, trail) && BadOk(before, trail) && Advances(before, s)
    requires before.baseline.Some? && s.readsbStart == before.baseline.value.readsbStart
    requires Low(Accept(before, s), s, Progressing(before, s))
    ensures BadOk(AddBad(Accept(before, s), s), trail + [s])
  {
    AddBadKeeps(before, s, trail);
  }

  /** A reservation is justified by its window of accepted samples. */
  lemma ReserveIsJustified(state: State, before: Episode, s: Sample, i: Input,
                           trail: seq<Sample>, attempts: seq<Attempt>, session: nat, episodes: nat, restarted: bool)
    requires EpisodeOk(before, trail, attempts, session, episodes) && Advances(before, s)
    requires Assess(state, before, s, i).reserved.Some?
    ensures var plan := Assess(state, before, s, i);
      var made := NewAttempts(plan, i, s, trail + [s], session, episodes, restarted);
      && plan == Reserve(state, plan.reserved.value, s, i)
      && plan.reserved.value.attempts == 0 && CooldownOk(state, s, plan.reserved.value.policy)
      && |made| == 1 && AttemptOk(made[0], trail + [s], session, episodes)
      && made[0].sample == s && made[0].policy == plan.reserved.value.policy
      && made[0].at == |trail| + 1 && made[0].episode == episodes && made[0].session == session
      && EpisodeOk(plan.reserved.value, trail + [s], attempts, session, episodes)
      && plan.reserved.value.boot == before.boot
      && plan.reserved.value.lastPost == Some(s) && plan.reserved.value.lastSource == Some(s.sourceNow)
      && plan.reserved.value.instance == before.instance
  {
    hide EpisodeOk, Low, Accept, Progressing, BadOk, PostOk, StillCollapsed, Sustained, AttemptOk, Assess;
    EpisodeParts(before, trail, attempts, session, episodes);
    ReserveShape(state, before, s, i);
    AddBadIsQuiet(state, before, s, i, trail, attempts, session, episodes);
    AddBadKeeps(before, s, trail);
    AcceptFields(before, s);
    var e := AddBad(Accept(before, s), s);
    EpisodeParts(e, trail + [s], attempts, session, episodes);
    MadeIsJustified(e, s, i.recheck.value, trail, session, episodes, restarted);
  }

  lemma MadeIsJustified(e: Episode, s: Sample, check: Sample, trail: seq<Sample>,
      session: nat, episodes: nat, restarted: bool)
    requires BadOk(e, trail + [s]) && e.bad != [] && e.baseline.Some? && e.lastPost == Some(s) && PostOk(e, trail + [s])
    requires Sustained(e, s) && e.retryStartMono.None? && Elapsed(e, s) >= e.policy.graceSec
    requires s.mono - e.startMono <= e.policy.startupWindowSec && s.lostBuffers == 0.0
    requires StillCollapsed(e, s, check) && s.readsbStart == e.baseline.value.readsbStart
    ensures AttemptOk(Attempt(s, check, e.policy, e.baseline.value, e.startMono, Suffix(trail + [s], |e.bad|),
                              episodes, session,
                              |trail| + 1, restarted), trail + [s], session, episodes)
  {
    hide Run, Records;
    RecordsFirst(e.bad, Suffix(trail + [s], |e.bad|), e.baseline.value);
    RecheckCollapsed(e, s, check);
  }

  lemma AcceptFields(before: Episode, s: Sample)
    ensures var e := Accept(before, s);
      && e.boot == before.boot && e.instance == before.instance && e.baseline == before.baseline
      && e.attempts == before.attempts && e.lastPost == Some(s) && e.lastSource == Some(s.sourceNow)
      && e.startMono == before.startMono && e.retryStartMono == before.retryStartMono
  {
  }

  lemma RecheckCollapsed(e: Episode, s: Sample, check: Sample)
    requires e.baseline.Some? && StillCollapsed(e, s, check) && s.readsbStart == e.baseline.value.readsbStart
    ensures SameIdentity(check, s) && Collapsed(check, e.baseline.value, e.policy)
    ensures check.positions <= s.positions && check.lostBuffers == 0.0
  {
  }

  /** Every check that stands between a sample and a reservation. */
  lemma ReserveShape(state: State, before: Episode, s: Sample, i: Input)
    requires Assess(state, before, s, i).reserved.Some?
    ensures before.baseline.Some? && s.readsbStart == before.baseline.value.readsbStart
    ensures Low(Accept(before, s), s, Progressing(before, s))
    ensures var e := AddBad(Accept(before, s), s);
      && Sustained(e, s) && e.attempts == 0 && CooldownOk(state, s, e.policy)
      && Elapsed(e, s) >= e.policy.graceSec
      && s.mono - e.startMono <= e.policy.startupWindowSec && s.lostBuffers == 0.0
      && i.allowEffect && i.recheck.Some? && StillCollapsed(e, s, i.recheck.value)
      && Assess(state, before, s, i) == Reserve(state, e, s, i)
  {
    hide Low, Sustained, Progressing, Gap;
  }

  lemma RecordsFirst(bad: seq<BadEntry>, window: seq<Sample>, baseline: Baseline)
    requires Records(bad, window, baseline) && bad != []
    ensures |bad| == |window| && bad[0].sourceNow == window[0].sourceNow && bad[0].mono == window[0].mono
  {
  }

  // ----- One step of a run

  function TrailAfter(w: World, i: Input): seq<Sample>
    requires i.first.Some?
  {
    if Observe(w.disk, i).accepted then w.trail + [i.first.value] else w.trail
  }

  predicate Behind(e: Episode, s: Sample) {
    e.lastPost.Some? && (s.sourceNow < e.lastPost.value.sourceNow || s.readsbNow < e.lastPost.value.readsbNow)
  }

  predicate Recounted(e: Episode, s: Sample) {
    e.lastPost.Some? && (s.readsbStart != e.lastPost.value.readsbStart || s.positions < e.lastPost.value.positions)
  }

  function Current(state: State, i: Input): Episode
    requires i.first.Some?
  {
    var bound := Bind(state, i.first.value, i.policy);
    if bound.policy == i.policy then bound else bound.(policy := i.policy, bad := [])
  }

  /** The sample passes every early return, so that it is assessed. */
  predicate Assessed(state: State, i: Input)
    requires i.first.Some?
  {
    var s, e := i.first.value, Current(state, i);
    && s.receiver == Bind(state, s, i.policy).receiver
    && !(s.sourceNow < s.startEpoch || s.readsbNow < s.startEpoch)
    && e.lastSource != Some(s.sourceNow)
    && !Behind(e, s) && !Recounted(e, s)
  }

  lemma CurrentKeeps(w: World, i: Input)
    requires Safe(w) && i.first.Some?
    ensures var s := i.first.value;
      && EpisodeOk(Current(w.disk, i), w.trail, w.attempts, SessionAfter(w, s), EpisodesAfter(w, s))
      && Current(w.disk, i).boot == s.boot && Current(w.disk, i).instance == s.instance
  {
    hide EpisodeOk, Bind;
    var s := i.first.value;
    BindKeeps(w, s, i.policy);
    WithoutEvidence(Bind(w.disk, s, i.policy), w.trail, w.attempts, SessionAfter(w, s), EpisodesAfter(w, s), i.policy);
  }

  lemma AssessedAdvances(w: World, i: Input)
    requires Safe(w) && i.first.Some? && Assessed(w.disk, i)
    ensures Advances(Current(w.disk, i), i.first.value)
    ensures Observe(w.disk, i) == Assess(w.disk, Current(w.disk, i), i.first.value, i)
  {
    hide Bind, BadOk, SpentOk, UnspentOk, Assess;
    CurrentKeeps(w, i);
  }

  lemma SaveOnlyIsQuiet(state: State, e: Episode, status: Status, accepted: bool,
                        trail: seq<Sample>, attempts: seq<Attempt>, session: nat, episodes: nat)
    requires EpisodeOk(e, trail, attempts, session, episodes)
    ensures QuietPlan(SaveOnly(state, e, status, accepted), state.lastRestart, trail, attempts, session, episodes)
  {
    hide EpisodeOk;
  }

  lemma UnassessedIsQuiet(w: World, i: Input)
    requires Safe(w) && i.first.Some? && !Assessed(w.disk, i)
    ensures var s := i.first.value;
      QuietPlan(Observe(w.disk, i), w.disk.lastRestart, TrailAfter(w, i),
          w.attempts, SessionAfter(w, s), EpisodesAfter(w, s))
  {
    hide Safe, EpisodeOk, Bind, Assess, QuietPlan;
    var s := i.first.value;
    var bound, e := Bind(w.disk, s, i.policy), Current(w.disk, i);
    var session, episodes := SessionAfter(w, s), EpisodesAfter(w, s);
    BindKeeps(w, s, i.policy);
    CurrentKeeps(w, i);
    WithoutEvidence(bound, w.trail, w.attempts, session, episodes, i.policy);
    WithoutEvidence(e, w.trail, w.attempts, session, episodes, i.policy);
    if s.receiver != bound.receiver {
      SaveOnlyIsQuiet(w.disk, bound.(bad := []), Status("UNKNOWN", true, false), false,
          w.trail, w.attempts, session, episodes);
    } else if s.sourceNow < s.startEpoch || s.readsbNow < s.startEpoch {
      SaveOnlyIsQuiet(w.disk, e, Status("STARTING", false, false), false, w.trail, w.attempts, session, episodes);
    } else if e.lastSource == Some(s.sourceNow) {
      SaveOnlyIsQuiet(w.disk, e, Repeated(e, s), false, w.trail, w.attempts, session, episodes);
    } else if Behind(e, s) {
      var reset := e.(bad := [], good := 0);
      StatusIsFree(reset, Unconfirmed(reset).status, w.trail, w.attempts, session, episodes);
      SaveOnlyIsQuiet(w.disk, Unconfirmed(reset), Status("UNKNOWN", true, false), false,
          w.trail, w.attempts, session, episodes);
    } else {
      PostKeeps(e, s, w.trail, w.attempts, session, episodes);
      SaveOnlyIsQuiet(w.disk, Post(e.(bad := [], good := 0), s), Status("UNKNOWN", true, false), true,
                      w.trail + [s], w.attempts, session, episodes);
    }
  }

  lemma AssessAccepts(state: State, e: Episode, s: Sample, i: Input)
    ensures Assess(state, e, s, i).effects != [] ==> Assess(state, e, s, i).accepted
  {
    hide Low, Sustained, Progressing, Gap, Accept;
  }

  lemma QuietPerformKeeps(w: World, step: Step)
    requires Safe(w) && step.input.first.Some? && Observe(w.disk, step.input).reserved.None?
    ensures Safe(Perform(w, step))
  {
    hide EpisodeOk, AttemptsOk, Spaced, LastRestartOk, Observe;
    var i := step.input;
    var s, plan := i.first.value, Observe(w.disk, i);
    var effects := Done(plan, step.done);
    if effects != [] {
      if Assessed(w.disk, i) {
        AssessedAdvances(w, i);
        CurrentKeeps(w, i);
        AssessIsQuiet(w.disk, Current(w.disk, i), s, i, w.trail, w.attempts, SessionAfter(w, s), EpisodesAfter(w, s));
        AssessAccepts(w.disk, Current(w.disk, i), s, i);
      } else {
        UnassessedIsQuiet(w, i);
      }
      assert effects == plan.effects;
      TrailMayGrow(w, i);
      assert w.attempts + [] == w.attempts;
    }
  }

  /** What is known about past attempts outlives any step. */
  lemma TrailMayGrow(w: World, i: Input)
    requires AttemptsOk(w.attempts, w.trail, w.session, w.episodes) && Spaced(w.attempts, w.trail) && i.first.Some?
    ensures var s := i.first.value;
      && AttemptsOk(w.attempts, TrailAfter(w, i), SessionAfter(w, s), EpisodesAfter(w, s))
      && Spaced(w.attempts, TrailAfter(w, i))
  {
    hide Observe, Justified, Reboots, OpensEpisode;
    var s, trail := i.first.value, TrailAfter(w, i);
    forall k | 0 <= k < |w.attempts|
      ensures AttemptOk(w.attempts[k], trail, SessionAfter(w, s), EpisodesAfter(w, s))
    {
      assert AttemptOk(w.attempts[k], w.trail, w.session, w.episodes);
    }
    forall k | 0 < k < |w.attempts|
      ensures Apart(w.attempts[k - 1], w.attempts[k], trail)
    {
      assert Apart(w.attempts[k - 1], w.attempts[k], w.trail);
      if w.attempts[k - 1].session == w.attempts[k].session {
        RecoveryLasts(w.trail, trail, w.attempts[k - 1].at, w.attempts[k].at);
      }
    }
  }

  lemma RecoveryLasts(trail: seq<Sample>, longer: seq<Sample>, from: nat, to: nat)
    requires trail <= longer && RecoveredBetween(trail, from, to)
    ensures RecoveredBetween(longer, from, to)
  {
    var k :| from <= k < to && Recovered(trail, k);
    assert Recovered(longer, k);
  }

  lemma SpacedExtends(attempts: seq<Attempt>, made: Attempt, trail: seq<Sample>)
    requires Spaced(attempts, trail)
    requires attempts != [] ==> Apart(LastOf(attempts), made, trail)
    ensures Spaced(attempts + [made], trail)
  {
    forall k | 0 < k < |attempts + [made]|
      ensures Apart((attempts + [made])[k - 1], (attempts + [made])[k], trail)
    {
      if k < |attempts| {
        assert Apart(attempts[k - 1], attempts[k], trail);
      }
    }
  }

  /** The spent episode, whatever the restart returned. */
  lemma SpentKeeps(e: Episode, phase: Phase, trail: seq<Sample>, attempts: seq<Attempt>, session: nat, episodes: nat)
    requires PostOk(e, trail) && phase != Healthy
    requires attempts != [] && LastOf(attempts).episode == episodes && LastOf(attempts).session == session
    requires LastOf(attempts).sample.boot == e.boot && LastOf(attempts).at <= |trail|
    ensures EpisodeOk(e.(attempts := 1, phase := phase, bad := [], good := 0), trail, attempts, session, episodes)
  {
  }

  lemma ReservePerformKeeps(w: World, step: Step)
    requires Safe(w) && step.input.first.Some? && Observe(w.disk, step.input).reserved.Some?
    ensures Safe(Perform(w, step))
  {
    hide EpisodeOk, AttemptsOk, Spaced, Observe, Remember, Assess, Justified;
    var i := step.input;
    var s, plan := i.first.value, Observe(w.disk, i);
    var effects := Done(plan, step.done);
    assert Assessed(w.disk, i) by {
      if !Assessed(w.disk, i) {
        UnassessedIsQuiet(w, i);
      }
    }
    if effects != [] {
      AssessedAdvances(w, i);
      CurrentKeeps(w, i);
      ReservedKeeps(w, i, effects);
    }
  }

  lemma ReservedKeeps(w: World, i: Input, effects: seq<Effect>)
    requires Safe(w) && i.first.Some? && Assessed(w.disk, i)
    requires Observe(w.disk, i).reserved.Some? && effects != [] && effects <= Observe(w.disk, i).effects
    requires Advances(Current(w.disk, i), i.first.value)
    requires EpisodeOk(Current(w.disk, i), w.trail, w.attempts,
        SessionAfter(w, i.first.value), EpisodesAfter(w, i.first.value))
    requires Observe(w.disk, i) == Assess(w.disk, Current(w.disk, i), i.first.value, i)
    ensures var s, plan := i.first.value, Observe(w.disk, i);
      var session, episodes, trail := SessionAfter(w, s), EpisodesAfter(w, s), w.trail + [s];
      plan.accepted &&
      Safe(World(LastSaved(w.disk, effects), trail, session, episodes,
                 w.attempts + NewAttempts(plan, i, s, trail, session, episodes, RestartCalled in effects)))
  {
    hide EpisodeOk, AttemptsOk, Spaced, Observe, Remember, Assess, Justified, Advances, Assessed, Current,
      SessionAfter, EpisodesAfter, AttemptOk, Apart, LastSaved, PostOk, NewAttempts, CooldownOk;
    var s, plan := i.first.value, Observe(w.disk, i);
    var session, episodes, restarted := SessionAfter(w, s), EpisodesAfter(w, s), RestartCalled in effects;
    ReserveIsJustified(w.disk, Current(w.disk, i), s, i, w.trail, w.attempts, session, episodes, restarted);
    var made := NewAttempts(plan, i, s, w.trail + [s], session, episodes, restarted)[0];
    assert NewAttempts(plan, i, s, w.trail + [s], session, episodes, restarted) == [made];
    var e := plan.reserved.value;
    TrailMayGrow(w, i);
    assert TrailAfter(w, i) == w.trail + [s];
    SessionGrows(w, s);
    if w.attempts != [] {
      AttemptsAreApart(w, e, made, session, episodes);
    }
    SpacedExtends(w.attempts, made, w.trail + [s]);
    AttemptsExtend(w.attempts, made, w.trail + [s], session, episodes);
    EpisodeParts(e, w.trail + [s], w.attempts, session, episodes);
    SpentDisk(w, i, e, made, session, episodes);
    SavedReservation(w.disk, e, s, i, effects);
  }

  lemma SessionGrows(w: World, s: Sample)
    ensures w.session <= SessionAfter(w, s)
  {
  }

  lemma AttemptsExtend(attempts: seq<Attempt>, made: Attempt, trail: seq<Sample>, session: nat, episodes: nat)
    requires AttemptsOk(attempts, trail, session, episodes) && AttemptOk(made, trail, session, episodes)
    ensures AttemptsOk(attempts + [made], trail, session, episodes)
  {
    hide AttemptOk;
  }

  lemma AttemptsAreApart(w: World, e: Episode, made: Attempt, session: nat, episodes: nat)
    requires w.attempts != [] && AttemptsOk(w.attempts, w.trail, w.session, w.episodes) && w.session <= session
    requires LastRestartOk(w.disk.lastRestart, w.attempts)
    requires EpisodeOk(e, w.trail + [made.sample], w.attempts, session, episodes) && e.attempts == 0
    requires e.lastPost == Some(made.sample)
    requires made.at == |w.trail| + 1 && made.episode == episodes && made.session == session && made.policy == e.policy
    requires CooldownOk(w.disk, made.sample, made.policy)
    ensures Apart(LastOf(w.attempts), made, w.trail + [made.sample])
  {
    hide Justified, BadOk, RecoveredBetween;
    assert AttemptOk(LastOf(w.attempts), w.trail, w.session, w.episodes);
  }

  lemma SpentDisk(w: World, i: Input, e: Episode, made: Attempt, session: nat, episodes: nat)
    requires PostOk(e, w.trail + [made.sample]) && e.lastPost == Some(made.sample)
    requires made.at == |w.trail| + 1 && made.episode == episodes && made.session == session
    ensures forall phase, status | phase != Healthy ::
      EpisodeOk(e.(attempts := 1, phase := phase, bad := [], good := 0, status := status),
                w.trail + [made.sample], w.attempts + [made], session, episodes)
  {
    hide EpisodeOk;
    var trail, attempts := w.trail + [made.sample], w.attempts + [made];
    forall phase, status | phase != Healthy
      ensures EpisodeOk(e.(attempts := 1, phase := phase, bad := [], good := 0, status := status),
                        trail, attempts, session, episodes)
    {
      SpentKeeps(e, phase, trail, attempts, session, episodes);
      StatusIsFree(e.(attempts := 1, phase := phase, bad := [], good := 0), status, trail, attempts, session, episodes);
    }
  }

  /** After any prefix of a reservation's effects the disk holds the spent episode and its restart time. */
  lemma SavedReservation(state: State, e: Episode, s: Sample, i: Input, effects: seq<Effect>)
    requires effects != [] && effects <= Reserve(state, e, s, i).effects
    ensures var disk := LastSaved(state, effects);
      && disk.lastRestart == Some(Restarted(s.mono, s.boot))
      && disk.episode.Some?
      && exists phase, status :: phase != Healthy
           && disk.episode.value == e.(attempts := 1, phase := phase, bad := [], good := 0, status := status)
  {
    var all := Reserve(state, e, s, i).effects;
    if |effects| == 2 {
      assert effects[..1] == [all[0]];
      assert LastSaved(state, [all[0]]) == all[0].state;
    }
    var disk := LastSaved(state, effects);
    assert disk in {all[0].state, all[2].state, all[3].state};
    var f := disk.episode.value;
    assert f == e.(attempts := 1, phase := f.phase, bad := [], good := 0, status := f.status);
  }

  lemma BlindPerformKeeps(w: World, step: Step)
    requires Safe(w) && step.input.first.None?
    ensures Safe(Perform(w, step))
  {
    hide AttemptsOk, Spaced;
    var effects := Done(Observe(w.disk, step.input), step.done);
    if effects != [] {
      assert effects == [Saved(Blind(w.disk))];
    }
  }

  lemma PerformKeepsSafe(w: World, step: Step)
    requires Safe(w)
    ensures Safe(Perform(w, step))
  {
    hide Observe, Perform, Safe;
    if step.input.first.None? {
      BlindPerformKeeps(w, step);
    } else if Observe(w.disk, step.input).reserved.None? {
      QuietPerformKeeps(w, step);
    } else {
      ReservePerformKeeps(w, step);
    }
  }

  lemma {:induction false} RunsAreSafe(steps: seq<Step>)
    ensures Safe(Runs(steps))
  {
    hide Perform;
    if steps == [] {
    } else {
      RunsAreSafe(steps[..|steps| - 1]);
      PerformKeepsSafe(Runs(steps[..|steps| - 1]), steps[|steps| - 1]);
    }
  }

  // ----- Main results

  /** Every durable attempt, and so every restart, rests on one contiguous run of collapsed samples. */
  lemma EveryAttemptIsJustified(steps: seq<Step>, k: nat)
    requires k < |Runs(steps).attempts|
    ensures var w := Runs(steps);
      var a := w.attempts[k];
      && Justified(a)
      && |a.window| <= a.at <= |w.trail|
      && a.window == w.trail[a.at - |a.window|..a.at]
  {
    hide Runs, Justified;
    RunsAreSafe(steps);
    assert AttemptOk(Runs(steps).attempts[k], Runs(steps).trail, Runs(steps).session, Runs(steps).episodes);
  }

  /** Exactly when an assessed sample reserves a restart. */
  lemma ReservesExactlyWhen(state: State, before: Episode, s: Sample, i: Input)
    ensures
      Assess(state, before, s, i).reserved.Some? <==>
        && before.baseline.Some? && s.readsbStart == before.baseline.value.readsbStart
        && Low(Accept(before, s), s, Progressing(before, s))
        && var e := AddBad(Accept(before, s), s);
           && Sustained(e, s) && e.attempts == 0
           && Elapsed(e, s) >= e.policy.graceSec && s.mono - e.startMono <= e.policy.startupWindowSec
           && CooldownOk(state, s, e.policy) && s.lostBuffers == 0.0
           && i.allowEffect && i.recheck.Some? && StillCollapsed(e, s, i.recheck.value)
  {
    hide Sustained, Progressing, Gap;
    if Assess(state, before, s, i).reserved.Some? {
      ReserveShape(state, before, s, i);
    }
  }

  /** One attempt per origin episode; within one boot session, attempts are a cooldown and a recovery apart. */
  lemma AttemptsAreSpaced(steps: seq<Step>, i: nat, j: nat)
    requires i < j < |Runs(steps).attempts|
    ensures Apart(Runs(steps).attempts[i], Runs(steps).attempts[j], Runs(steps).trail)
  {
    hide Runs, Justified;
    RunsAreSafe(steps);
    SpacedApart(Runs(steps).attempts, Runs(steps).trail, i, j);
  }

  lemma {:induction false} SpacedApart(attempts: seq<Attempt>, trail: seq<Sample>, i: nat, j: nat)
    requires Spaced(attempts, trail) && i < j < |attempts|
    ensures Apart(attempts[i], attempts[j], trail)
  {
    assert Apart(attempts[j - 1], attempts[j], trail);
    if i < j - 1 {
      SpacedApart(attempts, trail, i, j - 1);
      if attempts[i].session == attempts[j].session {
        var k :| attempts[j - 1].at <= k < attempts[j].at && Recovered(trail, k);
        assert RecoveredBetween(trail, attempts[i].at, attempts[j].at);
      }
    }
  }

  /** The service is restarted only right after the spent attempt was saved, at most once in an invocation,
      and every call is one of the attempts above. */
  lemma RestartFollowsReservation(steps: seq<Step>, step: Step)
    ensures var w, next := Runs(steps), Perform(Runs(steps), step);
      var effects := Done(Observe(w.disk, step.input), step.done);
      RestartCalled in effects ==>
        && |effects| >= 2 && effects[1] == RestartCalled
        && effects[0].Saved? && effects[0].state.episode.Some? && effects[0].state.episode.value.attempts == 1
        && (forall k :: 0 <= k < |effects| && k != 1 ==> effects[k].Saved?)
        && |next.attempts| == |w.attempts| + 1
        && next.attempts[|w.attempts|].restarted && Some(next.attempts[|w.attempts|].sample) == step.input.first
  {
    hide Runs, Safe, Recent, Perform, Observe;
    var w := Runs(steps);
    RunsAreSafe(steps);
    if RestartCalled in Done(Observe(w.disk, step.input), step.done) {
      RestartShape(w, step);
    }
  }

  lemma RestartShape(w: World, step: Step)
    requires Safe(w) && RestartCalled in Done(Observe(w.disk, step.input), step.done)
    ensures step.input.first.Some? && Observe(w.disk, step.input).reserved.Some?
    ensures var effects := Done(Observe(w.disk, step.input), step.done);
      && |effects| >= 2 && effects[1] == RestartCalled
      && effects[0].Saved? && effects[0].state.episode.Some? && effects[0].state.episode.value.attempts == 1
      && (forall k :: 0 <= k < |effects| && k != 1 ==> effects[k].Saved?)
    ensures var next := Perform(w, step);
      && |next.attempts| == |w.attempts| + 1
      && next.attempts[|w.attempts|].restarted && next.attempts[|w.attempts|].sample == step.input.first.value
  {
    hide EpisodeOk, AttemptsOk, Spaced, Observe, Assess, Justified, AttemptOk, CooldownOk, Remember;
    var i := step.input;
    var plan := Observe(w.disk, i);
    if i.first.None? {
      BlindSaves(w.disk, i);
    } else if !Assessed(w.disk, i) {
      UnassessedIsQuiet(w, i);
    } else {
      var s := i.first.value;
      AssessedAdvances(w, i);
      CurrentKeeps(w, i);
      if plan.reserved.None? {
        AssessIsQuiet(w.disk, Current(w.disk, i), s, i, w.trail, w.attempts, SessionAfter(w, s), EpisodesAfter(w, s));
      } else {
        ReserveIsJustified(w.disk, Current(w.disk, i), s, i, w.trail,
            w.attempts, SessionAfter(w, s), EpisodesAfter(w, s), true);
      }
    }
  }

  lemma BlindSaves(state: State, i: Input)
    requires i.first.None?
    ensures Observe(state, i).effects == [Saved(Blind(state))]
  {
  }

  /** The durable restart budget is always one of the two values that loading accepts. */
  lemma BudgetIsValid(steps: seq<Step>)
    ensures var e := Runs(steps).disk.episode;
      e.Some? ==> e.value.attempts in {0, 1}
  {
    hide Runs, Justified, Run, Records;
    RunsAreSafe(steps);
  }
}
