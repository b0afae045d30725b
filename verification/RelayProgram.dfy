/** The relay guard in the form its program has: fields that accept, tick and stop update in place. */
module RelayProgram {
  import opened Options
  import opened RelayLease
  import opened RelayGuard
  import opened RelayRuns

  /** The one-row table that outlives every instance. */
  class HighwaterTable {
    var sequence: int

    constructor ()
      ensures sequence == 0
    {
      sequence := 0;
    }
  }

  class Guard {
    const config: Config
    const table: HighwaterTable
    var highwater: int
    var lease: Option<Lease>
    var enabled: bool
    var halted: bool
    var reason: string
    var inputId: string
    var lastBytes: int
    var lastProgress: real
    var twitchDisabled: bool
    var firstAttempt: Option<real>
    var lastWall: real
    var lastElapsed: real
    const grantDeadline: real
    // The control thread caught an error and has yet to stop.
    var failing: bool
    // For the specification: what this instance sent, and the commits of all instances so far.
    ghost var sent: seq<Patch>
    ghost var used: seq<Consumed>
    ghost const boots: nat

    ghost function View(): Instance
      reads this
    {
      Instance(config, highwater, lease, enabled, halted, reason, inputId, lastBytes, lastProgress, twitchDisabled,
               firstAttempt, lastWall, lastElapsed, grantDeadline)
    }

    ghost function Whole(): World
      reads this, table
    {
      World(table.sequence, boots, Some(View()), failing, used, sent)
    }

    constructor (config: Config, table: HighwaterTable, progress: real, wall: real, elapsed: real, ghost before: World)
      requires before.row == table.sequence
      ensures this.table == table
      ensures Whole() == Step(before, Boot(config, progress, wall, elapsed))
    {
      used, boots, failing := before.used, before.boots + 1, false;
      this.config, this.table := config, table;
      highwater, lease := table.sequence, None;
      enabled, halted, reason := false, false, "WAITING_FOR_LEASE";
      inputId, lastBytes, lastProgress := "", 0, progress;
      twitchDisabled, firstAttempt := false, None;
      lastWall, lastElapsed := wall, elapsed;
      grantDeadline := elapsed + config.grant.expiresAt - wall;
      sent := [];
    }

    method Stop(why: string)
      modifies this`reason, this`halted, this`enabled
      ensures View() == Stopped(old(View()), why)
    {
      if !halted {
        reason := why;
      }
      halted, enabled := true, false;
    }

    /** The row is committed before the lease can authorise anything. */
    method AcceptLease(request: Request, wall: real, elapsed: real, update: Update) returns (answer: Admission)
      requires update != CommittedThenCrashed
      modifies this`highwater, this`lease, this`used, table
      ensures
        var judged := Judge(old(View()), request, wall, elapsed);
        answer == if judged.Admitted? && update == RefusedByStorage then Rejected(StorageFailed) else judged
      ensures answer.Rejected? ==> View() == old(View()) && table.sequence == old(table.sequence)
      ensures answer.Admitted? ==>
        && table.sequence == answer.lease.terms.sequence
        && View() == old(View()).(highwater := answer.lease.terms.sequence, lease := Some(answer.lease))
      ensures Whole() == Step(old(Whole()), Accept(request, wall, elapsed, update))
    {
      hide Admit, MatchesGrant;
      if halted {
        return Rejected(RelayHalted);
      }
      if request.lease.None? {
        return Rejected(Malformed);
      }
      var body := request.lease.value;
      if !MatchesGrant(body, config) {
        return Rejected(GrantMismatch);
      }
      if request.signature.None? {
        return Rejected(Malformed);
      }
      answer := Admit(body, request.signature.value, config.key, config.instance, highwater,
                      wall, elapsed, lease, config.continuous);
      if answer.Admitted? {
        if update == RefusedByStorage {
          return Rejected(StorageFailed);
        }
        table.sequence := answer.lease.terms.sequence;
        highwater, lease := answer.lease.terms.sequence, Some(answer.lease);
        used := used + [Consumed(boots, config, body, answer.lease, wall, elapsed)];
      }
    }

    method TickOnce(m: Meets) returns (raised: bool)
      modifies this`lastWall, this`lastElapsed, this`inputId, this`lastBytes, this`lastProgress,
        this`reason, this`halted, this`enabled, this`firstAttempt, this`twitchDisabled, this`sent
      ensures
        var o := Tick(old(View()), m);
        View() == o.g && sent == old(sent) + o.patches && raised == o.raised
    {
      hide ReadInput, Stopped;
      raised := false;
      if halted {
        return;
      }
      if m.exited {
        Stop("MEDIAMTX_EXITED");
        return;
      }
      if m.wall < lastWall || Abs((m.wall - lastWall) - (m.now - lastElapsed)) > 2.0 {
        Stop("RELAY_CLOCK_CHANGED");
        return;
      }
      lastWall, lastElapsed := m.wall, m.now;
      if !config.continuous && m.now >= grantDeadline {
        Stop("OPERATOR_GRANT_ELAPSED_EXPIRED");
        return;
      }
      if !config.continuous && m.wall >= config.grant.expiresAt {
        Stop("OPERATOR_GRANT_EXPIRED");
        return;
      }
      if lease.Some? && !lease.value.Valid(m.leaseWall, m.now) {
        Stop("LEASE_EXPIRED");
        return;
      }
      raised := ReadAndForward(m);
    }

    method ReadAndForward(m: Meets) returns (raised: bool)
      modifies this`lastWall, this`lastElapsed, this`inputId, this`lastBytes, this`lastProgress,
        this`reason, this`halted, this`enabled, this`firstAttempt, this`twitchDisabled, this`sent
      ensures
        var o := ReadInput(old(View()), m);
        View() == o.g && sent == old(sent) + o.patches && raised == o.raised
    {
      hide Gate, Stopped;
      if m.online.Raised? {
        return true;
      }
      if m.online.value {
        if m.publisher.Raised? {
          return true;
        }
        if m.publisher.value.Some? {
          var c := m.publisher.value.value;
          if inputId != "" && c.id != inputId {
            Stop("INPUT_INSTANCE_CHANGED");
            return false;
          }
          inputId := c.id;
          if c.inboundBytes > lastBytes {
            lastBytes, lastProgress := c.inboundBytes, m.now;
          }
        }
      }
      raised := ForwardWhenAllowed(m);
    }

    method ForwardWhenAllowed(m: Meets) returns (raised: bool)
      requires m.online.Answer?
      modifies this`lastWall, this`lastElapsed, this`inputId, this`lastBytes, this`lastProgress,
        this`reason, this`halted, this`enabled, this`firstAttempt, this`twitchDisabled, this`sent
      ensures
        var o := Gate(old(View()), m);
        View() == o.g && sent == old(sent) + o.patches && raised == o.raised
    {
      hide Watch, Stopped;
      if enabled && (!m.online.value || m.now - lastProgress > 4.0) {
        Stop("INPUT_STALE");
        return false;
      }
      if !enabled && lease.Some? && m.online.value && lastBytes > 0 && m.now - lastProgress < 2.0 {
        if !lease.value.Valid(m.forwardWall, m.forwardNow) {
          Stop("LEASE_EXPIRED_BEFORE_FORWARD");
          return false;
        }
        sent := sent + [Enable];
        if m.enable.Raised? {
          return true;
        }
        enabled, reason := true, "FORWARDING";
        firstAttempt := Some(m.stamp);
      }
      raised := WatchDestinations(m);
    }

    method WatchDestinations(m: Meets) returns (raised: bool)
      modifies this`lastWall, this`lastElapsed, this`inputId, this`lastBytes, this`lastProgress,
        this`reason, this`halted, this`enabled, this`firstAttempt, this`twitchDisabled, this`sent
      ensures
        var o := Watch(old(View()), m);
        View() == o.g && sent == old(sent) + o.patches && raised == o.raised
    {
      hide Stopped;
      if !enabled {
        return false;
      }
      if m.destinations.Raised? {
        return true;
      }
      var rows := m.destinations.value;
      if !Bound(rows) {
        Stop("FORWARD_PROVIDER_BINDING_INVALID");
        return false;
      }
      if !m.readable || firstAttempt.None? {
        return true;
      }
      if Failing(rows, 1, m.youtubeNow - firstAttempt.value > 15.0) {
        Stop("YOUTUBE_FORWARD_FAILED");
        return false;
      }
      if !twitchDisabled && Failing(rows, 2, m.twitchNow - firstAttempt.value > 15.0) {
        sent := sent + [DisableTwitch];
        if m.disable.Raised? {
          return true;
        }
        twitchDisabled := true;
      }
      return false;
    }

    /** What the request handlers do while the control thread does not hold the lock. */
    method Serve(arrivals: seq<Arrival>) returns (ghost events: seq<Event>)
      requires Survives(arrivals)
      modifies this`highwater, this`lease, this`used, this`reason, this`halted, this`enabled, table
      ensures Whole() == Run(old(Whole()), events) && OneInstance(events)
      ensures old(halted) ==> halted
    {
      hide Run, Judge;
      events := [];
      RunNothing(Whole());
      for k := 0 to |arrivals|
        invariant Whole() == Run(old(Whole()), events) && OneInstance(events)
        invariant old(halted) ==> halted
      {
        match arrivals[k] {
          case LeaseArrives(request, wall, elapsed, update) =>
            var answer := AcceptLease(request, wall, elapsed, update);
            RunExtends(old(Whole()), events, Accept(request, wall, elapsed, update));
            events := events + [Accept(request, wall, elapsed, update)];
          case StopArrives =>
            Stop("OPERATOR_STOP");
            RunExtends(old(Whole()), events, OperatorStop);
            events := events + [OperatorStop];
        }
      }
    }

    method TickTurn(m: Meets)
      requires !failing
      modifies this
      ensures Whole() == Step(old(Whole()), Ticks(m))
      ensures old(halted) ==> halted
    {
      hide Tick, ReadInput;
      ghost var before := View();
      HaltedTicks(before, m);
      var raised := TickOnce(m);
      failing := raised;
    }

    method StopTurn()
      requires failing
      modifies this
      ensures Whole() == Step(old(Whole()), StopAfterFailure) && halted && !failing
    {
      Stop("CONTROL_API_UNAVAILABLE");
      failing := false;
    }

    /** One round of the control loop: a tick, and a stop after a tick that raised. */
    method Round(turn: Turn) returns (ghost events: seq<Event>)
      requires !failing && Survives(turn.before) && Survives(turn.between)
      modifies this, table
      ensures !failing && Whole() == Run(old(Whole()), events) && OneInstance(events)
      ensures old(halted) ==> halted
    {
      hide Run, Step, Survives;
      ghost var start := Whole();
      events := Serve(turn.before);
      TickTurn(turn.meets);
      RunExtends(start, events, Ticks(turn.meets));
      events := events + [Ticks(turn.meets)];
      if failing {
        ghost var more := Serve(turn.between);
        RunJoins(start, events, more);
        events := events + more;
        StopTurn();
        RunExtends(start, events, StopAfterFailure);
        events := events + [StopAfterFailure];
      }
    }

    /** The control thread, with leases and stops arriving before any tick, between a tick that raised and its stop,
        and before the final stop.  It always ends stopped, and whatever it meets it is one run of this instance, so
        every result about runs holds of it. */
    method Control(script: seq<Turn>, last: seq<Arrival>) returns (ghost events: seq<Event>)
      requires !failing && Survives(last)
      requires forall k :: 0 <= k < |script| ==> Survives(script[k].before) && Survives(script[k].between)
      modifies this, table
      ensures halted && !enabled && !failing
      ensures Whole() == Run(old(Whole()), events) && OneInstance(events)
      ensures old(Safe(Whole())) ==> Safe(Whole()) && sent <= FULL
    {
      hide Run, Step, Safe, Survives;
      ghost var start := Whole();
      var i := 0;
      events := [];
      RunNothing(start);
      while i < |script| && !halted
        invariant 0 <= i <= |script| && !failing
        invariant Whole() == Run(start, events) && OneInstance(events)
      {
        ghost var more := Round(script[i]);
        RunJoins(start, events, more);
        events := events + more;
        i := i + 1;
      }
      ghost var rest := Serve(last);
      RunJoins(start, events, rest);
      events := events + rest;
      ghost var before := Whole();
      Stop("OPERATOR_STOP");
      StopIsStep(before, Whole());
      RunExtends(start, events, OperatorStop);
      events := events + [OperatorStop];
      if Safe(start) {
        RunKeepsSafe(start, events);
        SafeIsBounded(Whole());
      }
    }
  }

  lemma StopIsStep(before: World, after: World)
    requires before.live.Some? && after == before.(live := Some(Stopped(before.live.value, "OPERATOR_STOP")))
    ensures after == Step(before, OperatorStop)
  {
  }

  /** A request to one of the two handlers. */
  datatype Arrival = LeaseArrives(request: Request, wall: real, elapsed: real, update: Update) | StopArrives

  /** One round of the control loop: what arrives before its tick, what the tick meets, and what arrives before the
      stop that follows a tick that raised. */
  datatype Turn = Turn(before: seq<Arrival>, meets: Meets, between: seq<Arrival>)

  /** The process is still there afterwards. */
  predicate Survives(arrivals: seq<Arrival>) {
    forall k :: 0 <= k < |arrivals| ==> arrivals[k].LeaseArrives? ==> arrivals[k].update != CommittedThenCrashed
  }

  lemma SafeIsBounded(w: World)
    requires Safe(w)
    ensures w.sent <= FULL
  {
  }

  lemma RunNothing(w: World)
    ensures Run(w, []) == w
  {
  }

  lemma RunExtends(w: World, events: seq<Event>, e: Event)
    ensures Run(w, events + [e]) == Step(Run(w, events), e)
  {
    RunJoins(w, events, [e]);
    assert [e][1..] == [];
    assert Run(Step(Run(w, events), e), []) == Step(Run(w, events), e);
  }
}
