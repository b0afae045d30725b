/** The receiver guard in the form its program has: an in-memory state that one observation edits
    in place and saves step by step.
 */
module ReceiverProgram {
  import opened Options
  import opened ReceiverGuard
  import opened ReceiverRuns

  class Guard {
    // The durable copy, and the in-memory state that an invocation loads from it.
    var disk: State
    var episode: Option<Episode>
    var history: seq<Sample>
    var last: Option<Sample>
    var lastRestart: Option<Restarted>
    ghost var effects: seq<Effect>

    ghost function Memory(): State
      reads this
    {
      State(episode, history, last, lastRestart)
    }

    constructor ()
      ensures disk == INITIAL_STATE && effects == []
    {
      disk, effects := INITIAL_STATE, [];
      episode, history, last, lastRestart := None, [], None, None;
    }

    method Load()
      modifies this
      ensures Memory() == disk == old(disk) && effects == old(effects)
    {
      episode, history, last, lastRestart := disk.episode, disk.history, disk.last, disk.lastRestart;
    }

    method Save()
      modifies this`disk, this`effects
      ensures disk == Memory() && effects == old(effects) + [Saved(Memory())]
    {
      disk := State(episode, history, last, lastRestart);
      effects := effects + [Saved(disk)];
    }

    method BindTo(s: Sample, policy: Policy) returns (e: Episode)
      modifies this`episode
      ensures e == Bind(old(Memory()), s, policy) && episode == Some(e)
    {
      if episode.Some? && s.boot != episode.value.boot {
        e := NewEpisode(history, s, policy);
      } else if episode.Some? && s.instance != episode.value.instance
        && episode.value.attempts == 1 && episode.value.phase != Healthy {
        e := episode.value;
        e := e.(instance := s.instance, lastSource := None, lastPost := None);
        e := e.(bad := [], good := 0, retryStartMono := Some(s.startMono), phase := Verifying);
      } else if episode.None? || s.instance != episode.value.instance {
        e := NewEpisode(history, s, policy);
      } else {
        e := episode.value;
      }
      episode := Some(e);
    }

    method RememberSample(s: Sample, policy: Policy)
      modifies this`history, this`last
      ensures Memory() == Remember(old(Memory()), s, policy)
    {
      var n := |history|;
      if n == 0 || history[n - 1].sourceNow != s.sourceNow || history[n - 1].boot != s.boot {
        history := history + [s];
      }
      history := RecentRows(history, s, policy);
      if |history| > 32 {
        history := history[|history| - 32..];
      }
      last := Some(s);
    }

    method SaveStatus(e: Episode, s: Sample, i: Input, status: Status)
      modifies this
      ensures effects == old(effects) + Finish(old(Memory()), e, s, i, status).effects
      ensures disk == Memory() == Finish(old(Memory()), e, s, i, status).effects[0].state
    {
      episode := Some(e.(status := Some(status)));
      RememberSample(s, i.policy);
      Save();
    }

    /** Collecting raised: the evidence is dropped, and the last alert stands. */
    method ForgetEvidence(serviceStarting: bool) returns (status: Status)
      modifies this
      ensures effects == old(effects) + [Saved(Blind(old(Memory())))]
      ensures disk == Memory() == Blind(old(Memory()))
      ensures status == if serviceStarting then Status("STARTING", false, false) else Status("UNKNOWN", true, false)
    {
      if episode.Some? {
        var e := episode.value.(bad := [], good := 0, lastPost := None, lastSource := None);
        var alert := e.status.Some? && e.status.value.alert;
        episode := Some(e.(status := Some(Status("UNKNOWN", alert, false))));
      }
      Save();
      status := if serviceStarting then Status("STARTING", false, false) else Status("UNKNOWN", true, false);
    }

    /** One invocation: exactly the planned effects, in order, with the last save on disk. */
    method ObserveOnce(i: Input) returns (status: Status)
      modifies this
      ensures effects == old(effects) + Observe(old(disk), i).effects
      ensures status == Observe(old(disk), i).status
      ensures disk == LastSaved(old(disk), Observe(old(disk), i).effects)
    {
      hide Assess, Bind, Repeated;
      Load();
      if i.first.None? {
        status := ForgetEvidence(i.serviceStarting);
        return;
      }
      var s := i.first.value;
      var e := BindTo(s, i.policy);
      if s.receiver != e.receiver {
        episode := Some(e.(bad := []));
        Save();
        return Status("UNKNOWN", true, false);
      }
      if e.policy != i.policy {
        e := e.(policy := i.policy, bad := []);
        episode := Some(e);
      }
      if s.sourceNow < s.startEpoch || s.readsbNow < s.startEpoch {
        Save();
        return Status("STARTING", false, false);
      }
      if e.lastSource == Some(s.sourceNow) {
        Save();
        return Repeated(e, s);
      }
      var previous := e.lastPost;
      if previous.Some? && (s.sourceNow < previous.value.sourceNow || s.readsbNow < previous.value.readsbNow) {
        episode := Some(Unconfirmed(e.(bad := [], good := 0)));
        Save();
        return Status("UNKNOWN", true, false);
      }
      if previous.Some? && (s.readsbStart != previous.value.readsbStart || s.positions < previous.value.positions) {
        episode := Some(e.(bad := [], good := 0, lastSource := Some(s.sourceNow), lastPost := Some(s)));
        Save();
        return Status("UNKNOWN", true, false);
      }
      status := AssessSample(e, s, i, old(disk));
    }

    method AssessSample(before: Episode, s: Sample, i: Input, ghost start: State) returns (status: Status)
      requires Memory().(episode := start.episode) == start == disk
      modifies this
      ensures effects == old(effects) + Assess(start, before, s, i).effects
      ensures status == Assess(start, before, s, i).status
      ensures disk == LastSaved(start, Assess(start, before, s, i).effects)
    {
      hide Low, Sustained, Recover, Remember;
      var e, previous := before, before.lastPost;
      var gap := previous.Some? && s.sourceNow - previous.value.sourceNow > e.policy.sampleMaxAgeSec;
      if gap {
        e := e.(bad := [], good := 0);
      }
      var progressing := previous.Some? && !gap && s.positions > previous.value.positions;
      e := e.(good := if s.freshPositions > 0 && (progressing || previous.None?) then e.good + 1 else 0);
      e := e.(lastSource := Some(s.sourceNow), lastPost := Some(s));
      assert e == Accept(before, s) && progressing == Progressing(before, s);
      var elapsed := s.mono - (if e.retryStartMono.Some? then e.retryStartMono.value else e.startMono);
      status := Status("STARTING", false, false);
      if e.good >= 2 {
        e := e.(phase := Healthy, bad := []);
        status := Status("HEALTHY", false, true);
      } else if elapsed < e.policy.graceSec {
        e := e.(bad := []);
      } else if e.baseline.None? {
        status := Status("QUIET_OR_UNKNOWN", false, false);
      } else if e.phase == Healthy && s.mono - e.startMono > e.policy.startupWindowSec {
        e := e.(bad := []);
        status := Status("QUIET", false, false);
      } else if s.readsbStart != e.baseline.value.readsbStart {
        status := Status("UNKNOWN", true, false);
      } else if !Low(e, s, progressing) {
        e := e.(bad := []);
        status := Status("OBSERVING", false, false);
      } else {
        e := AddBad(e, s);
        if Sustained(e, s) {
          status := RecoverSample(e, s, i, start);
          return;
        }
        status := Status("SUSPECT", false, false);
      }
      SaveStatus(e, s, i, status);
      FinishFrom(start, old(Memory()), e, s, i, status);
    }

    /** Decides on the restart; the attempt is saved before the service is touched. */
    method RecoverSample(e: Episode, s: Sample, i: Input, ghost start: State) returns (status: Status)
      requires e.baseline.Some?
      requires Memory().(episode := start.episode) == start == disk
      modifies this
      ensures effects == old(effects) + Recover(start, e, s, i).effects
      ensures status == Recover(start, e, s, i).status
      ensures disk == LastSaved(start, Recover(start, e, s, i).effects)
    {
      hide Remember;
      if e.attempts > 0 {
        status := Status("EXHAUSTED", true, false);
      } else if s.mono - e.startMono > e.policy.startupWindowSec {
        status := Status("DEGRADED", true, false);
      } else if lastRestart.Some? && lastRestart.value.boot == s.boot
        && s.mono - lastRestart.value.mono < e.policy.cooldownSec {
        status := Status("DEGRADED", true, false);
      } else if s.lostBuffers != 0.0 {
        status := Status("DEGRADED", true, false);
      } else if !i.allowEffect {
        status := Status("WOULD_RESTART", true, false);
      } else {
        if i.recheck.None? {
          return Status("UNKNOWN", true, false);
        }
        var check := i.recheck.value;
        if !SameIdentity(check, s) {
          status := Status("UNKNOWN", true, false);
        } else if check.freshPositions > 0 || check.positions > s.positions
          || check.rate / e.baseline.value.rate >= e.policy.rateRatio {
          status := Status("OBSERVING", true, false);
        } else if check.readsbStart != s.readsbStart || check.lostBuffers != 0.0 {
          status := Status("UNKNOWN", true, false);
        } else {
          status := RestartOnce(e, s, i, start);
          return;
        }
      }
      SaveStatus(e, s, i, status);
      FinishFrom(start, old(Memory()), e, s, i, status);
    }

    method RestartOnce(e: Episode, s: Sample, i: Input, ghost start: State) returns (status: Status)
      requires e.baseline.Some?
      requires Memory().(episode := start.episode) == start
      modifies this
      ensures effects == old(effects) + Reserve(start, e, s, i).effects
      ensures status == Reserve(start, e, s, i).status
      ensures disk == LastSaved(start, Reserve(start, e, s, i).effects)
    {
      hide Remember;
      var spent := e.(attempts := 1, phase := RestartReserved, bad := [], good := 0);
      episode := Some(spent);
      lastRestart := Some(Restarted(s.mono, s.boot));
      Save();
      effects := effects + [RestartCalled];
      var phase := OutcomeUnknown;
      if i.restart.Returned? {
        phase := if i.restart.code == 0 then Verifying else RestartFailed;
      }
      spent := spent.(phase := phase);
      episode := Some(spent);
      Save();
      status := Status(PhaseName(phase), true, false);
      episode := Some(spent.(status := Some(status)));
      RememberSample(s, i.policy);
      Save();
    }
  }

  lemma FinishFrom(start: State, memory: State, e: Episode, s: Sample, i: Input, status: Status)
    requires memory.(episode := start.episode) == start
    ensures Finish(memory, e, s, i, status) == Finish(start, e, s, i, status)
    ensures LastSaved(start, Finish(start, e, s, i, status).effects) == Finish(start, e, s, i, status).effects[0].state
  {
  }
}
