/** Whole runs of the renewal reducer: what a log of commands and confirmations can look like,
    whatever the tick inputs were and whichever optional decisions the owner dropped.
 */
module TwitchRuns {
  import opened Options
  import opened TwitchSession

  // ----- The shape of a log, stated without the reducer

  function Wall(e: Event): int {
    e.inputs.now.utc
  }

  function Elapsed(e: Event): int {
    e.inputs.now.elapsed
  }

  /** A fact observed at `at` is neither from the future nor too old. */
  predicate Timely(at: int, now: Clock, policy: Policy) {
    at <= now.utc <= at + policy.evidenceMaxAge * SECOND
  }

  /** The writer runs, and its bytes grew lately. */
  predicate Flowing(writer: WriterFacts, policy: Policy) {
    && writer.status == Running && writer.progressAge.Some?
    && 0 <= writer.progressAge.value <= policy.evidenceMaxAge * SECOND
  }

  /** The provider reports this status of the broadcast, lately. */
  predicate Reported(i: Inputs, status: BroadcastStatus, policy: Policy) {
    i.broadcast.status == status && Timely(i.broadcast.observedAt, i.now, policy)
  }

  /** The session has reached the daily renewal time or the age guard, whichever is first. */
  predicate Due(session: Session, now: Clock, policy: Policy) {
    NextDailyRenewal(session.startedAt, policy) <= now.utc || session.startedAt + policy.renewAfter * SECOND <= now.utc
  }

  /** The renewal was bound to this broadcaster, route, relay and boot. */
  predicate BoundTo(b: Binding, i: Inputs) {
    && b.broadcasterId == i.context.broadcasterId && b.routeGeneration == i.context.routeGeneration
    && b.authorityEpoch == i.context.authorityEpoch && b.relayInstance == i.context.relayInstance
    && b.bootId == i.now.bootId
  }

  predicate SameRenewal(a: Event, b: Event) {
    a.session == b.session && a.operation == b.operation && a.binding == b.binding
  }

  /** The tick carries the durable outcome of `request`, observed no earlier than it was asked. */
  predicate Answers(e: Event, request: RequestId, status: OutcomeStatus, asked: Event) {
    && e.inputs.outcome.Some?
    && e.inputs.outcome.value.requestId == request
    && e.inputs.outcome.value.binding == asked.binding
    && e.inputs.outcome.value.status == status
    && Wall(asked) <= e.inputs.outcome.value.observedAt <= e.inputs.writer.observedAt
  }

  predicate StopLink(e: Event, previous: Option<Event>, policy: Policy) {
    && BoundTo(e.binding, e.inputs) && e.binding.writerGeneration == e.inputs.writer.generation
    && e.operation == Operation(e.binding, e.session.streamId, e.session.startedAt)
    && e.command == Some(Command(StopTwitch, StopRequest(e.operation), e.binding))
    && (Due(e.session, e.inputs.now, policy) || e.inputs.validationAuthorized)
    && (previous.Some? ==> previous.value.session.startedAt <= e.session.startedAt)
  }

  predicate StopConfirmedLink(e: Event, stop: Event) {
    && SameRenewal(e, stop) && e.command.None?
    && Answers(e, StopRequest(e.operation), StopObserved, stop)
    && e.inputs.writer.status == Stopped
    && e.inputs.writer.generation == e.binding.writerGeneration
  }

  predicate StartLink(e: Event, confirmed: Event, policy: Policy) {
    && SameRenewal(e, confirmed)
    && e.command == Some(Command(StartTwitch, StartRequest(e.operation), e.binding))
    && policy.offlineWait * SECOND <= Elapsed(e) - Elapsed(confirmed)
    && e.inputs.broadcast.status == Offline
    && e.inputs.broadcast.broadcasterId == e.binding.broadcasterId
    && Wall(confirmed) <= e.inputs.broadcast.observedAt <= Wall(e)
    && e.inputs.writer.status == Stopped
  }

  predicate StartConfirmedLink(e: Event, start: Event, policy: Policy) {
    && SameRenewal(e, start) && e.command.None?
    && Answers(e, StartRequest(e.operation), StartObserved, start)
    && e.inputs.writer.generation == e.binding.writerGeneration + 1
    && Flowing(e.inputs.writer, policy)
  }

  predicate RenewedLink(e: Event, verified: Event, start: Event, policy: Policy) {
    && e.operation == verified.operation && e.binding == verified.binding && e.command.None?
    && e.inputs.broadcast.status == Live && e.inputs.broadcast.session == Some(e.session)
    && e.session.streamId != verified.session.streamId
    && verified.session.startedAt < e.session.startedAt <= Wall(e)
    && Wall(start) - policy.clockSkew * SECOND <= e.session.startedAt
  }

  predicate InTime(e: Event, stop: Event, policy: Policy) {
    Wall(e) - Wall(stop) < policy.renewalTimeout * SECOND
  }

  /** The tick held the grant, the lease, fresh input and a well-formed target on the primary route. */
  predicate Authorised(i: Inputs, policy: Policy) {
    && i.context.routeState in {"PRIMARY", "PRIMARY_DEGRADED"} && !i.context.routeChangePending
    && i.context.effectsEnabled && i.context.maintenanceAuthorized
    && i.context.leaseBootId == i.now.bootId && i.now.elapsed < i.context.leaseExpiresElapsed && i.context.inputFresh
    && IsId(i.context.broadcasterId) && i.context.routeGeneration > 0 && i.context.authorityEpoch > 0
    && i.context.relayInstance != "" && i.writer.relayInstance == i.context.relayInstance
    && i.writer.generation > 0 && Timely(i.writer.observedAt, i.now, policy)
    && i.broadcast.broadcasterId == i.context.broadcasterId
  }

  /** Everything that entry `i` promises about itself and the entries before it. */
  predicate Link(log: seq<Event>, i: nat, policy: Policy)
    requires i < |log|
  {
    var e := log[i];
    && Authorised(e.inputs, policy)
    && match e.kind
    case StopAsked =>
      && (i > 0 ==> log[i - 1].kind == SessionRenewed)
      && StopLink(e, if i == 0 then None else Some(log[i - 1]), policy)
    case StopConfirmed =>
      i >= 1 && log[i - 1].kind == StopAsked && StopConfirmedLink(e, log[i - 1]) && InTime(e, log[i - 1], policy)
    case StartAsked =>
      i >= 2 && log[i - 1].kind == StopConfirmed && StartLink(e, log[i - 1], policy) && InTime(e, log[i - 2], policy)
    case StartConfirmed =>
      i >= 3 && log[i - 1].kind == StartAsked && StartConfirmedLink(e, log[i - 1], policy)
      && InTime(e, log[i - 3], policy)
    case SessionRenewed =>
      && i >= 4 && log[i - 1].kind == StartConfirmed
      && RenewedLink(e, log[i - 1], log[i - 2], policy) && InTime(e, log[i - 4], policy)
  }

  predicate Linked(log: seq<Event>, policy: Policy) {
    forall i :: 0 <= i < |log| ==> Link(log, i, policy)
  }

  // ----- The inductive invariant of a run

  predicate Idle(run: Run) {
    var n := |run.log|;
    && run.state.binding.None? && run.state.operation == NoOperation && run.state.beganAt.None?
    && (n > 0 ==>
          && run.log[n - 1].kind == SessionRenewed
          && run.state.session.Some?
          && run.log[n - 1].session.startedAt <= run.state.session.value.startedAt)
  }

  /** A renewal in flight agrees with the last entry of the log. */
  predicate Busy(run: Run) {
    var n := |run.log|;
    && n > 0
    && run.state.session == Some(run.log[n - 1].session)
    && run.state.binding == Some(run.log[n - 1].binding)
    && run.state.operation == run.log[n - 1].operation
    && run.state.operation != NoOperation
    && match run.state.phase
       case WaitStop =>
         && run.log[n - 1].kind == StopAsked
         && run.state.beganAt == Some(Wall(run.log[n - 1]))
       case WaitOffline =>
         && run.log[n - 1].kind == StopConfirmed
         && n >= 2 && run.state.beganAt == Some(Wall(run.log[n - 2]))
         && run.state.stoppedClock == Some(run.log[n - 1].inputs.now)
       case WaitStart =>
         && run.log[n - 1].kind == StartAsked
         && n >= 3 && run.state.beganAt == Some(Wall(run.log[n - 3]))
         && run.state.startRequestedAt == Some(Wall(run.log[n - 1]))
       case Verifying =>
         && run.log[n - 1].kind == StartConfirmed
         && n >= 4 && run.state.beganAt == Some(Wall(run.log[n - 4]))
         && run.state.startRequestedAt == Some(Wall(run.log[n - 2]))
       case _ => false
  }

  predicate StateOk(s: RenewalState) {
    s.revision >= 0 && SessionOk(s.session) && BindingOk(s.binding)
  }

  predicate Absorbed(s: RenewalState) {
    s.phase in {Unknown, Cancelled}
  }

  predicate Invariant(run: Run, policy: Policy) {
    && StateOk(run.state)
    && Linked(run.log, policy)
    && (if run.state.phase == Tracking then Idle(run) else Absorbed(run.state) || Busy(run))
  }

  lemma LinkedExtends(log: seq<Event>, e: Event, policy: Policy)
    requires Linked(log, policy)
    requires Link(log + [e], |log|, policy)
    ensures Linked(log + [e], policy)
  {
    forall i | 0 <= i < |log|
      ensures Link(log + [e], i, policy)
    {
      assert Link(log, i, policy);
    }
  }

  /** What the early exits leave for the phases to rely on. */
  predicate Cleared(s: RenewalState, i: Inputs, policy: Policy) {
    && (s.binding.Some? ==> BoundTo(s.binding.value, i))
    && Authorised(i, policy)
    && (s.beganAt.Some? ==> i.now.utc - s.beganAt.value < policy.renewalTimeout * SECOND)
  }

  lemma StepKeepsInvariant(run: Run, t: Tick, policy: Policy)
    requires Invariant(run, policy)
    ensures Invariant(Step(run, t, policy), policy)
  {
    var s := run.state;
    var exit := Preflight(s, t.inputs, policy);
    if exit.Some? {
      ExitKeepsInvariant(run, t, policy);
    } else if s.phase == Tracking {
      TrackKeepsInvariant(run, t, policy);
    } else {
      assert Cleared(s, t.inputs, policy);
      RenewKeepsInvariant(run, t, policy);
    }
  }

  /** An early exit emits nothing and at most halts the renewal. */
  lemma ExitShape(s: RenewalState, i: Inputs, policy: Policy)
    requires Preflight(s, i, policy).Some?
    ensures var d := Advance(s, i, policy);
      && Emitted(s, i, d) == []
      && (d.state == s || d.state == Recorded(s, i.now).(phase := d.state.phase))
      && d.state.phase in {s.phase, Unknown, Cancelled}
  {
    hide Fresh, IsId;
  }

  lemma ExitKeepsInvariant(run: Run, t: Tick, policy: Policy)
    requires Invariant(run, policy)
    requires Preflight(run.state, t.inputs, policy).Some?
    ensures Invariant(Step(run, t, policy), policy)
  {
    hide Advance, Preflight, Link, IsId;
    ExitShape(run.state, t.inputs, policy);
    assert run.log + [] == run.log;
  }

  /** Tracking either asks for a STOP or at most learns of a later session. */
  lemma TrackShape(s: RenewalState, i: Inputs, policy: Policy)
    requires SessionOk(s.session)
    ensures var d := Track(s, i, policy);
      && SessionOk(d.state.session)
      && (s.session.Some? ==>
            d.state.session.Some? && s.session.value.startedAt <= d.state.session.value.startedAt)
      && if d.command.None? then
           d.state == Recorded(s, i.now).(session := d.state.session) && d.verdict != Renewed
         else
           && d.state.session.Some?
           && d == RequestStop(s, i, d.state.session.value, policy)
           && (Due(d.state.session.value, i.now, policy) || i.validationAuthorized)
  {
    hide NextDailyRenewal, IsId;
  }

  lemma TrackKeepsInvariant(run: Run, t: Tick, policy: Policy)
    requires Invariant(run, policy) && run.state.phase == Tracking
    requires Cleared(run.state, t.inputs, policy)
    ensures Invariant(Apply(run, t, Track(run.state, t.inputs, policy)), policy)
  {
    hide Track, NextDailyRenewal, DueAt;
    TrackShape(run.state, t.inputs, policy);
    var d := Track(run.state, t.inputs, policy);
    var events := Emitted(run.state, t.inputs, d);
    if d.command.None? {
      assert run.log + events == run.log;
    } else {
      LinkedExtends(run.log, events[0], policy);
    }
  }

  lemma RenewKeepsInvariant(run: Run, t: Tick, policy: Policy)
    requires Invariant(run, policy) && Busy(run)
    requires Cleared(run.state, t.inputs, policy)
    ensures Invariant(Apply(run, t, Renew(run.state, t.inputs, policy)), policy)
  {
    hide Renew, Link;
    var d := Renew(run.state, t.inputs, policy);
    var events := Emitted(run.state, t.inputs, d);
    if d.state.phase in {run.state.phase, Unknown} {
      RenewalWaits(run, t.inputs, policy);
      assert run.log + events == run.log;
    } else {
      RenewalProceeds(run, t.inputs, policy);
      RenewalMoves(run, t.inputs, policy);
      LinkedExtends(run.log, events[0], policy);
      assert Apply(run, t, d) == Run(d.state, run.log + events);
    }
  }

  lemma RenewalWaits(run: Run, i: Inputs, policy: Policy)
    requires Invariant(run, policy) && Busy(run)
    requires Renew(run.state, i, policy).state.phase in {run.state.phase, Unknown}
    ensures var d := Renew(run.state, i, policy);
      && Emitted(run.state, i, d) == []
      && d.state == Recorded(run.state, i.now).(phase := d.state.phase)
  {
  }

  lemma RenewalProceeds(run: Run, i: Inputs, policy: Policy)
    requires Invariant(run, policy) && Busy(run)
    requires Cleared(run.state, i, policy)
    requires Renew(run.state, i, policy).state.phase !in {run.state.phase, Unknown}
    ensures var events := Emitted(run.state, i, Renew(run.state, i, policy));
      |events| == 1 && Link(run.log + events, |run.log|, policy)
  {
    hide DueAt, BindingFor, Authorised, BoundTo, IsId, NextDailyRenewal;
    BroadcasterIsBound(run.state, i, policy);
    assert Link(run.log, |run.log| - 1, policy);
  }

  lemma BroadcasterIsBound(s: RenewalState, i: Inputs, policy: Policy)
    requires s.binding.Some? && Cleared(s, i, policy)
    ensures i.broadcast.broadcasterId == s.binding.value.broadcasterId
  {
  }

  /** The fields that each phase changes when it completes. */
  lemma RenewalShape(s: RenewalState, i: Inputs, policy: Policy)
    requires InRenewal(s)
    requires s.binding.Some? && s.session.Some? && s.operation != NoOperation && s.beganAt.Some?
    requires Renew(s, i, policy).state.phase !in {s.phase, Unknown}
    ensures var d, r := Renew(s, i, policy), Recorded(s, i.now);
      match s.phase
      case WaitStop => d.state == r.(phase := WaitOffline, stoppedClock := Some(i.now)) && d.command.None?
      case WaitOffline =>
        && d.state == r.(phase := WaitStart, startRequestedAt := Some(i.now.utc))
        && d.command == Some(Command(StartTwitch, StartRequest(s.operation), s.binding.value))
      case WaitStart => d.state == r.(phase := Verifying) && d.command.None?
      case Verifying =>
        && d.state.session.Some? && SessionOk(d.state.session) && d.command.None? && d.verdict == Renewed
        && s.session.value.startedAt < d.state.session.value.startedAt
        && d.state == r.(phase := Tracking, session := d.state.session, binding := None, lastCompleted := s.operation,
                         operation := NoOperation, beganAt := None, stoppedClock := None, startRequestedAt := None)
      case _ => true
  {
    hide Fresh, WriterProgress;
  }

  lemma RenewalMoves(run: Run, i: Inputs, policy: Policy)
    requires Invariant(run, policy) && Busy(run)
    requires Renew(run.state, i, policy).state.phase !in {run.state.phase, Unknown}
    ensures var d := Renew(run.state, i, policy);
      && StateOk(d.state)
      && var next := Run(d.state, run.log + Emitted(run.state, i, d));
        if d.state.phase == Tracking then Idle(next) else Busy(next)
  {
    hide Renew, IsId, StopLink, StopConfirmedLink, StartLink, StartConfirmedLink, RenewedLink;
    assert Link(run.log, |run.log| - 1, policy);
    RenewalShape(run.state, i, policy);
    var events := Emitted(run.state, i, Renew(run.state, i, policy));
    assert (run.log + events)[|run.log|] == events[0];
  }

  lemma {:induction false} ReplayKeepsInvariant(ticks: seq<Tick>, policy: Policy)
    ensures Invariant(Replay(ticks, policy), policy)
  {
    if ticks != [] {
      ReplayKeepsInvariant(ticks[..|ticks| - 1], policy);
      StepKeepsInvariant(Replay(ticks[..|ticks| - 1], policy), ticks[|ticks| - 1], policy);
    }
  }

  // ----- The command grammar

  function Commands(log: seq<Event>): seq<Command> {
    if log == [] then []
    else
      var e := log[|log| - 1];
      Commands(log[..|log| - 1]) + (if e.command.Some? then [e.command.value] else [])
  }

  function OperationOf(c: Command): OperationId {
    match c.requestId
    case StopRequest(operation) => operation
    case StartRequest(operation) => operation
    case FaultStop(_, _) => NoOperation
  }

  /** When the session that a command renews had started. */
  function SessionStart(c: Command): int {
    match OperationOf(c)
    case Operation(_, _, startedAt) => startedAt
    case NoOperation => 0
  }

  /** Position `k` holds a STOP, or the START that completes the STOP before it. */
  predicate InTurn(cs: seq<Command>, k: nat)
    requires k < |cs|
  {
    if k % 2 == 0 then
      && cs[k] == Command(StopTwitch, StopRequest(OperationOf(cs[k])), cs[k].binding)
      && OperationOf(cs[k]).Operation?
      && OperationOf(cs[k]).binding == cs[k].binding
    else
      cs[k] == Command(StartTwitch, StartRequest(OperationOf(cs[k - 1])), cs[k - 1].binding)
  }

  predicate Alternating(cs: seq<Command>) {
    forall k :: 0 <= k < |cs| ==> InTurn(cs, k)
  }

  /** Operations renew ever later sessions. */
  predicate Advancing(cs: seq<Command>) {
    forall k, m :: 0 <= k < m < |cs| && k % 2 == 0 && m % 2 == 0 ==> SessionStart(cs[k]) < SessionStart(cs[m])
  }

  predicate BeforeSession(cs: seq<Command>, startedAt: int) {
    forall k :: 0 <= k < |cs| && k % 2 == 0 ==> SessionStart(cs[k]) < startedAt
  }

  /** How the commands so far end, by the kind of the last log entry. */
  predicate EndsLike(cs: seq<Command>, last: Event) {
    var n := |cs|;
    match last.kind
    case StopAsked => EndsStopped(cs, last)
    case StopConfirmed => EndsStopped(cs, last)
    case StartAsked => EndsStarted(cs, last)
    case StartConfirmed => EndsStarted(cs, last)
    case SessionRenewed => n % 2 == 0 && BeforeSession(cs, last.session.startedAt)
  }

  predicate EndsStopped(cs: seq<Command>, last: Event) {
    var n := |cs|;
    && n % 2 == 1
    && cs[n - 1] == Command(StopTwitch, StopRequest(last.operation), last.binding)
    && last.operation == Operation(last.binding, last.session.streamId, last.session.startedAt)
    && BeforeSession(cs[..n - 1], last.session.startedAt)
  }

  predicate EndsStarted(cs: seq<Command>, last: Event) {
    |cs| % 2 == 0 && |cs| >= 2 && EndsStopped(cs[..|cs| - 1], last)
  }

  lemma AppendStop(cs: seq<Command>, e: Event)
    requires Alternating(cs) && Advancing(cs) && |cs| % 2 == 0
    requires BeforeSession(cs, e.session.startedAt)
    requires e.operation == Operation(e.binding, e.session.streamId, e.session.startedAt)
    ensures var next := cs + [Command(StopTwitch, StopRequest(e.operation), e.binding)];
      Alternating(next) && Advancing(next) && EndsStopped(next, e)
  {
    var next := cs + [Command(StopTwitch, StopRequest(e.operation), e.binding)];
    forall k | 0 <= k < |next|
      ensures InTurn(next, k)
    {
      if k < |cs| {
        assert InTurn(cs, k);
      }
    }
    assert next[..|cs|] == cs;
  }

  lemma AppendStart(cs: seq<Command>, e: Event)
    requires Alternating(cs) && Advancing(cs) && EndsStopped(cs, e)
    ensures var next := cs + [Command(StartTwitch, StartRequest(e.operation), e.binding)];
      Alternating(next) && Advancing(next) && EndsStarted(next, e)
  {
    var next := cs + [Command(StartTwitch, StartRequest(e.operation), e.binding)];
    forall k | 0 <= k < |next|
      ensures InTurn(next, k)
    {
      if k < |cs| {
        assert InTurn(cs, k);
      }
    }
    assert next[..|cs|] == cs;
  }

  lemma RenewalClosesPair(cs: seq<Command>, last: Event, startedAt: int)
    requires Alternating(cs) && EndsStarted(cs, last)
    requires last.session.startedAt < startedAt
    ensures BeforeSession(cs, startedAt)
  {
    var stops := cs[..|cs| - 1];
    forall k | 0 <= k < |cs| && k % 2 == 0
      ensures SessionStart(cs[k]) < startedAt
    {
      assert cs[k] == stops[k];
      if k < |stops| - 1 {
        assert stops[k] == stops[..|stops| - 1][k];
      }
    }
  }

  /** The grammar of a linked log: STOP and START alternate and pair up, for ever later sessions. */
  lemma {:induction false} LogCommands(log: seq<Event>, policy: Policy)
    requires Linked(log, policy)
    ensures Alternating(Commands(log)) && Advancing(Commands(log))
    ensures log != [] ==> EndsLike(Commands(log), log[|log| - 1])
  {
    if log != [] {
      var n := |log| - 1;
      var front, e := log[..n], log[n];
      LinkedPrefix(log, n, policy);
      LogCommands(front, policy);
      assert Link(log, n, policy);
      if n > 0 {
        assert log[n - 1] == front[n - 1];
      }
      NextCommand(Commands(front), if n == 0 then None else Some(log[n - 1]), e, policy);
    }
  }

  lemma LinkedPrefix(log: seq<Event>, n: nat, policy: Policy)
    requires Linked(log, policy) && n <= |log|
    ensures Linked(log[..n], policy)
  {
    forall i | 0 <= i < n
      ensures Link(log[..n], i, policy)
    {
      assert Link(log, i, policy);
    }
  }

  /** `Link` between neighbours, as far as the commands are concerned. */
  predicate Follows(previous: Option<Event>, e: Event, policy: Policy) {
    match e.kind
    case StopAsked =>
      (previous.Some? ==> previous.value.kind == SessionRenewed) && StopLink(e, previous, policy)
    case StopConfirmed =>
      previous.Some? && previous.value.kind == StopAsked && SameRenewal(e, previous.value) && e.command.None?
    case StartAsked =>
      previous.Some? && previous.value.kind == StopConfirmed && StartLink(e, previous.value, policy)
    case StartConfirmed =>
      previous.Some? && previous.value.kind == StartAsked && SameRenewal(e, previous.value) && e.command.None?
    case SessionRenewed =>
      && previous.Some? && previous.value.kind == StartConfirmed
      && previous.value.session.startedAt < e.session.startedAt && e.command.None?
  }

  lemma NextCommand(cs: seq<Command>, previous: Option<Event>, e: Event, policy: Policy)
    requires Alternating(cs) && Advancing(cs)
    requires if previous.Some? then EndsLike(cs, previous.value) else cs == []
    requires Follows(previous, e, policy)
    ensures var next := cs + (if e.command.Some? then [e.command.value] else []);
      Alternating(next) && Advancing(next) && EndsLike(next, e)
  {
    hide Due, BoundTo, Timely, Alternating, Advancing;
    match e.kind
    case StopAsked =>
      AppendStop(cs, e);
    case StartAsked =>
      AppendStart(cs, e);
    case SessionRenewed =>
      assert cs + [] == cs;
      RenewalClosesPair(cs, previous.value, e.session.startedAt);
    case _ =>
      assert cs + [] == cs;
  }

  predicate DistinctRequests(cs: seq<Command>) {
    forall k, m :: 0 <= k < m < |cs| ==> cs[k].requestId != cs[m].requestId
  }

  lemma AdvancingIsDistinct(cs: seq<Command>)
    requires Alternating(cs) && Advancing(cs)
    ensures DistinctRequests(cs)
  {
    forall k, m | 0 <= k < m < |cs|
      ensures cs[k].requestId != cs[m].requestId
    {
      assert InTurn(cs, k) && InTurn(cs, m);
      if k % 2 == 1 && m % 2 == 1 {
        assert InTurn(cs, k - 1) && InTurn(cs, m - 1);
      }
    }
  }

  // ----- Main results

  /** In every run the commands are STOP/START pairs of one operation and no request ID recurs. */
  lemma CommandGrammar(ticks: seq<Tick>, policy: Policy)
    ensures var cs := Commands(Replay(ticks, policy).log);
      Alternating(cs) && Advancing(cs) && DistinctRequests(cs)
  {
    ReplayKeepsInvariant(ticks, policy);
    LogCommands(Replay(ticks, policy).log, policy);
    AdvancingIsDistinct(Commands(Replay(ticks, policy).log));
  }

  /** A START waits out the hold after its writer was seen stopped, on OFFLINE evidence, within the timeout. */
  lemma EveryStartIsJustified(ticks: seq<Tick>, policy: Policy, i: nat)
    requires var log := Replay(ticks, policy).log; i < |log| && log[i].kind == StartAsked
    ensures var log := Replay(ticks, policy).log;
      && i >= 2
      && var start, confirmed, stop := log[i], log[i - 1], log[i - 2];
      && SameRenewal(start, confirmed) && SameRenewal(start, stop)
      && stop.command == Some(Command(StopTwitch, StopRequest(start.operation), start.binding))
      && start.command == Some(Command(StartTwitch, StartRequest(start.operation), start.binding))
      && Answers(confirmed, StopRequest(start.operation), StopObserved, stop)
      && confirmed.inputs.writer.status == Stopped
      && Elapsed(start) - Elapsed(confirmed) >= policy.offlineWait * SECOND
      && start.inputs.broadcast.status == Offline
      && start.inputs.broadcast.observedAt >= Wall(confirmed)
      && Authorised(start.inputs, policy) && Authorised(stop.inputs, policy)
      && Wall(start) - Wall(stop) < policy.renewalTimeout * SECOND
  {
    hide Step;
    ReplayKeepsInvariant(ticks, policy);
    var log := Replay(ticks, policy).log;
    assert Link(log, i, policy) && Link(log, i - 1, policy) && Link(log, i - 2, policy);
  }

  /** A renewal ends on a later session than the one it stopped, started after the START was asked. */
  lemma EveryRenewalAdvances(ticks: seq<Tick>, policy: Policy, i: nat)
    requires var log := Replay(ticks, policy).log; i < |log| && log[i].kind == SessionRenewed
    ensures var log := Replay(ticks, policy).log;
      && i >= 4
      && var stop, start, renewed := log[i - 4], log[i - 2], log[i];
      && stop.operation == start.operation == renewed.operation
      && stop.kind == StopAsked && start.kind == StartAsked
      && renewed.session.startedAt > stop.session.startedAt
      && renewed.session.startedAt >= Wall(start) - policy.clockSkew * SECOND
      && Wall(renewed) - Wall(stop) < policy.renewalTimeout * SECOND
  {
    hide Step;
    ReplayKeepsInvariant(ticks, policy);
    var log := Replay(ticks, policy).log;
    assert Link(log, i, policy) && Link(log, i - 1, policy) && Link(log, i - 2, policy) && Link(log, i - 3, policy);
  }

  // What the reducer needs in order to move on, stated phase by phase.

  /** The tick is of the same boot as the last one kept, not before it, and its clocks moved in step. */
  predicate SameTimeline(s: RenewalState, now: Clock, policy: Policy) {
    s.lastClock.Some? ==>
      var last, skew := s.lastClock.value, policy.clockSkew * SECOND;
      && last.bootId == now.bootId && last.elapsed <= now.elapsed
      && now.elapsed - last.elapsed - skew <= now.utc - last.utc <= now.elapsed - last.elapsed + skew
  }

  /** The session a tracking tick knows: the provider's if that is live now, else the one known before. */
  function Known(s: RenewalState, i: Inputs, policy: Policy): Option<Session> {
    if Reported(i, Live, policy) then i.broadcast.session else s.session
  }

  /** It is the known session again or a later one, and it has begun. */
  predicate Credible(s: RenewalState, i: Inputs, policy: Policy) {
    && Known(s, i, policy).Some?
    && var session := Known(s, i, policy).value;
       && session.startedAt <= i.now.utc
       && (Reported(i, Live, policy) ==>
             && IsId(session.streamId)
             && (s.session.Some? && s.session.value != session ==>
                   s.session.value.streamId != session.streamId && s.session.value.startedAt < session.startedAt))
  }

  predicate InRenewal(s: RenewalState) {
    s.phase in {WaitStop, WaitOffline, WaitStart, Verifying}
  }

  /** The outcome answers `command` of this renewal, lately and not before it was asked, in this way. */
  predicate Answered(s: RenewalState, i: Inputs, action: Action, asked: Option<int>, status: OutcomeStatus,
                     policy: Policy) {
    && s.binding.Some? && asked.Some? && i.outcome.Some?
    && var o := i.outcome.value;
       && o == Outcome(action, if action == StopTwitch then StopRequest(s.operation) else StartRequest(s.operation),
                       s.binding.value, status, o.observedAt)
       && asked.value <= o.observedAt && Timely(o.observedAt, i.now, policy)
  }

  predicate StopAnswered(s: RenewalState, i: Inputs, status: OutcomeStatus, policy: Policy) {
    Answered(s, i, StopTwitch, s.beganAt, status, policy)
  }

  predicate StartAnswered(s: RenewalState, i: Inputs, status: OutcomeStatus, policy: Policy) {
    Answered(s, i, StartTwitch, s.startRequestedAt, status, policy)
  }

  /** The writer that the renewal set out to stop is stopped. */
  predicate OldWriterStopped(s: RenewalState, i: Inputs) {
    s.binding.Some? && i.writer.status == Stopped && i.writer.generation == s.binding.value.writerGeneration
  }

  predicate NewWriterFlows(s: RenewalState, i: Inputs, policy: Policy) {
    s.binding.Some? && i.writer.generation == s.binding.value.writerGeneration + 1 && Flowing(i.writer, policy)
  }

  /** A broadcast of a later session than the stopped one, begun no earlier than the START, less the skew. */
  predicate NewBroadcast(s: RenewalState, i: Inputs, policy: Policy) {
    && Reported(i, Live, policy) && i.broadcast.session.Some? && s.session.Some? && s.startRequestedAt.Some?
    && var stopped, renewed := s.session.value, i.broadcast.session.value;
       && IsId(renewed.streamId) && renewed.streamId != stopped.streamId
       && stopped.startedAt < renewed.startedAt <= i.now.utc
       && s.startRequestedAt.value - policy.clockSkew * SECOND <= renewed.startedAt
  }

  predicate Evidence(s: RenewalState, i: Inputs, policy: Policy) {
    match s.phase
    case Tracking =>
      && Credible(s, i, policy) && Flowing(i.writer, policy)
      && (Due(Known(s, i, policy).value, i.now, policy) || i.validationAuthorized)
    case WaitStop =>
      && StopAnswered(s, i, StopObserved, policy) && OldWriterStopped(s, i)
      && i.outcome.value.observedAt <= i.writer.observedAt
    case WaitOffline =>
      && OldWriterStopped(s, i)
      && s.stoppedClock.Some? && s.stoppedClock.value.elapsed + policy.offlineWait * SECOND <= i.now.elapsed
      && Reported(i, Offline, policy) && s.stoppedClock.value.utc <= i.broadcast.observedAt
    case WaitStart =>
      && StartAnswered(s, i, StartObserved, policy) && NewWriterFlows(s, i, policy)
      && i.outcome.value.observedAt <= i.writer.observedAt
    case Verifying => NewWriterFlows(s, i, policy) && NewBroadcast(s, i, policy)
    case _ => false
  }

  // What ends a renewal for good, on the tick's own facts.

  predicate OnRoute(i: Inputs) {
    i.context.routeState in {"PRIMARY", "PRIMARY_DEGRADED"} && !i.context.routeChangePending
  }

  /** The route was handed over, or the renewal is bound to another one. */
  predicate Superseded(s: RenewalState, i: Inputs) {
    !OnRoute(i) || (s.binding.Some? && !BoundTo(s.binding.value, i))
  }

  predicate Overdue(s: RenewalState, now: Clock, policy: Policy) {
    s.beganAt.Some? && s.beganAt.value + policy.renewalTimeout * SECOND <= now.utc
  }

  /** The awaited command ended in an unknown outcome, or the stopped writer is seen other than stopped. */
  predicate Fatal(s: RenewalState, i: Inputs, policy: Policy) {
    match s.phase
    case WaitStop => StopAnswered(s, i, OutcomeUnknown, policy)
    case WaitOffline => !OldWriterStopped(s, i)
    case WaitStart => StartAnswered(s, i, OutcomeUnknown, policy)
    case _ => false
  }

  /** In every run a tick moves the renewal on exactly when it is authorised, in time and has the phase's evidence. */
  lemma MovesExactlyOnEvidence(ticks: seq<Tick>, i: Inputs, policy: Policy)
    ensures var s := Replay(ticks, policy).state;
      Emitted(s, i, Advance(s, i, policy)) != [] <==>
        SameTimeline(s, i.now, policy) && Cleared(s, i, policy) && Evidence(s, i, policy)
  {
    hide Step, Track, Renew, Evidence;
    ReplayKeepsInvariant(ticks, policy);
    var run := Replay(ticks, policy);
    var s := run.state;
    if Preflight(s, i, policy).None? {
      PreflightClears(run, i, policy);
      if s.phase == Tracking {
        TrackingMoves(s, i, policy);
      } else {
        RenewalMovesOnEvidence(s, i, policy);
      }
    } else {
      ExitShape(s, i, policy);
      PreflightStops(run, i, policy);
      HaltLacksEvidence(s, i, policy);
    }
  }

  lemma PreflightClears(run: Run, i: Inputs, policy: Policy)
    requires Preflight(run.state, i, policy).None?
    ensures SameTimeline(run.state, i.now, policy) && Cleared(run.state, i, policy)
  {
  }

  lemma PreflightStops(run: Run, i: Inputs, policy: Policy)
    requires Invariant(run, policy)
    requires Preflight(run.state, i, policy).Some?
    ensures !SameTimeline(run.state, i.now, policy) || !Cleared(run.state, i, policy) || Absorbed(run.state)
  {
    hide Link, IsId;
  }

  lemma HaltLacksEvidence(s: RenewalState, i: Inputs, policy: Policy)
    ensures Absorbed(s) ==> !Evidence(s, i, policy)
  {
  }

  lemma TrackingMoves(s: RenewalState, i: Inputs, policy: Policy)
    requires StateOk(s) && s.phase == Tracking && i.broadcast.broadcasterId == i.context.broadcasterId
    ensures Emitted(s, i, Track(s, i, policy)) != [] <==> Evidence(s, i, policy)
  {
    hide NextDailyRenewal, IsId;
  }

  lemma RenewalMovesOnEvidence(s: RenewalState, i: Inputs, policy: Policy)
    requires InRenewal(s) && i.broadcast.broadcasterId == i.context.broadcasterId
    requires s.binding.Some? && s.session.Some? && s.operation != NoOperation && s.beganAt.Some?
    ensures Emitted(s, i, Renew(s, i, policy)) != [] <==> Evidence(s, i, policy)
  {
    hide IsId;
  }

  /** Exactly when a tick ends a renewal for good: a lost route or binding cancels it; an authorised tick past the
      deadline, after an unknown outcome, or that sees the stopped writer again leaves it UNKNOWN. */
  lemma HaltsExactlyWhen(ticks: seq<Tick>, i: Inputs, policy: Policy)
    requires !Absorbed(Replay(ticks, policy).state)
    ensures
      var s := Replay(ticks, policy).state;
      var next := Advance(s, i, policy).state;
      && (next.phase == Cancelled <==> SameTimeline(s, i.now, policy) && InRenewal(s) && Superseded(s, i))
      && (next.phase == Unknown <==>
            && SameTimeline(s, i.now, policy) && InRenewal(s) && !Superseded(s, i) && Authorised(i, policy)
            && (Overdue(s, i.now, policy) || Fatal(s, i, policy)))
  {
    hide Step, Track, Renew, Link, IsId;
    ReplayKeepsInvariant(ticks, policy);
    var run := Replay(ticks, policy);
    if Preflight(run.state, i, policy).Some? {
      ExitHalts(run, i, policy);
    } else {
      PreflightClears(run, i, policy);
      if run.state.phase == Tracking {
        TrackShape(run.state, i, policy);
      } else {
        RenewalHalts(run, i, policy);
      }
    }
  }

  lemma ExitHalts(run: Run, i: Inputs, policy: Policy)
    requires Invariant(run, policy) && !Absorbed(run.state) && Preflight(run.state, i, policy).Some?
    ensures
      var s := run.state;
      var next := Advance(s, i, policy).state;
      && (next.phase == Cancelled <==> SameTimeline(s, i.now, policy) && InRenewal(s) && Superseded(s, i))
      && (next.phase == Unknown <==>
            SameTimeline(s, i.now, policy) && InRenewal(s) && !Superseded(s, i) && Authorised(i, policy)
            && Overdue(s, i.now, policy))
      && (SameTimeline(s, i.now, policy) && !Superseded(s, i) && Authorised(i, policy) ==> Overdue(s, i.now, policy))
  {
    hide Link, IsId;
  }

  lemma RenewalHalts(run: Run, i: Inputs, policy: Policy)
    requires Invariant(run, policy) && Busy(run) && Cleared(run.state, i, policy)
    ensures Renew(run.state, i, policy).state.phase != Cancelled
    ensures Renew(run.state, i, policy).state.phase == Unknown <==> Fatal(run.state, i, policy)
  {
    hide Link, IsId;
  }

  /** Exactly what a tick records: nothing once halted or off the timeline, else one more revision with its clock;
      and the session, which an idle tick learns from a credible live broadcast and a renewal only by its end. */
  lemma RecordsExactly(ticks: seq<Tick>, i: Inputs, policy: Policy)
    ensures
      var s := Replay(ticks, policy).state;
      var next := Advance(s, i, policy).state;
      && (next == s <==> Absorbed(s) || !SameTimeline(s, i.now, policy))
      && (next != s ==> next.revision == s.revision + 1 && next.lastClock == Some(i.now))
      && next.session ==
           (if s.phase == Tracking && SameTimeline(s, i.now, policy) && Cleared(s, i, policy) && Credible(s, i, policy)
            then Known(s, i, policy)
            else if InRenewal(s) && next.phase == Tracking then i.broadcast.session else s.session)
  {
    hide Step, Track, Renew, Link, IsId, Credible, Known;
    ReplayKeepsInvariant(ticks, policy);
    var run := Replay(ticks, policy);
    if Preflight(run.state, i, policy).Some? {
      ExitRecords(run, i, policy);
    } else {
      PreflightClears(run, i, policy);
      if run.state.phase == Tracking {
        TrackingRecords(run.state, i, policy);
      } else {
        RenewalRecords(run, i, policy);
      }
    }
  }

  lemma ExitRecords(run: Run, i: Inputs, policy: Policy)
    requires Invariant(run, policy) && Preflight(run.state, i, policy).Some?
    ensures
      var s, next := run.state, Advance(run.state, i, policy).state;
      && (next == s <==> Absorbed(s) || !SameTimeline(s, i.now, policy))
      && (next != s ==> next == Recorded(s, i.now).(phase := next.phase))
      && next.phase in {s.phase, Unknown, Cancelled} && next.session == s.session
      && (SameTimeline(s, i.now, policy) && Cleared(s, i, policy) ==> Absorbed(s))
  {
    hide Link;
    ExitShape(run.state, i, policy);
    PreflightStops(run, i, policy);
  }

  lemma TrackingRecords(s: RenewalState, i: Inputs, policy: Policy)
    requires s.phase == Tracking && i.broadcast.broadcasterId == i.context.broadcasterId
    ensures
      var next := Track(s, i, policy).state;
      && next.revision == s.revision + 1 && next.lastClock == Some(i.now)
      && next.session == if Credible(s, i, policy) then Known(s, i, policy) else s.session
  {
    hide NextDailyRenewal, IsId, DueAt;
  }

  lemma RenewalRecords(run: Run, i: Inputs, policy: Policy)
    requires Invariant(run, policy) && Busy(run)
    ensures
      var s, next := run.state, Renew(run.state, i, policy).state;
      && next.revision == s.revision + 1 && next.lastClock == Some(i.now)
      && next.session == if next.phase == Tracking then i.broadcast.session else s.session
  {
    hide Link, IsId;
  }

  /** Tick `k` is the one that logged event `i`. */
  predicate Logs(ticks: seq<Tick>, k: nat, i: nat, policy: Policy)
    requires k < |ticks|
  {
    |Replay(ticks[..k], policy).log| == i && |Replay(ticks[..k + 1], policy).log| == i + 1
  }

  /** From the confirmation of a STOP to its START every authorised tick in time saw the old writer stopped: had one
      seen anything else, no START would have come. */
  lemma OldWriterStaysStopped(ticks: seq<Tick>, policy: Policy, confirmed: nat, k: nat, start: nat, i: nat)
    requires confirmed < k <= start < |ticks| && i > 0
    requires Logs(ticks, confirmed, i - 1, policy) && Logs(ticks, start, i, policy)
    requires Replay(ticks[..start + 1], policy).log[i].kind == StartAsked
    ensures |Replay(ticks[..k], policy).log| == i
    ensures
      var s, seen := Replay(ticks[..k], policy).state, ticks[k].inputs;
      && s.phase == WaitOffline
      && (SameTimeline(s, seen.now, policy) && Cleared(s, seen, policy) ==> OldWriterStopped(s, seen))
  {
    hide Advance, Cleared, Superseded, Authorised, Link, Replay, SameTimeline, Overdue;
    LogGrows(ticks, confirmed + 1, k, policy);
    LogGrows(ticks, k, start, policy);
    WaitsOffline(ticks, policy, k, start, i);
    ReplayStep(ticks, k, policy);
    HaltsExactlyWhen(ticks[..k], ticks[k].inputs, policy);
    ClearedIsCurrent(Replay(ticks[..k], policy).state, ticks[k].inputs, policy);
    if k == start {
      MovesExactlyOnEvidence(ticks[..k], ticks[k].inputs, policy);
    } else {
      LogGrows(ticks, k, k + 1, policy);
      WaitsOffline(ticks, policy, k + 1, start, i);
    }
  }

  lemma ClearedIsCurrent(s: RenewalState, i: Inputs, policy: Policy)
    ensures Cleared(s, i, policy) ==> Authorised(i, policy) && !Superseded(s, i) && !Overdue(s, i.now, policy)
  {
  }

  lemma ReplayStep(ticks: seq<Tick>, k: nat, policy: Policy)
    requires k < |ticks|
    ensures Replay(ticks[..k + 1], policy) == Step(Replay(ticks[..k], policy), ticks[k], policy)
  {
    assert ticks[..k + 1] == ticks[..k] + [ticks[k]];
    ReplayExtends(ticks[..k], ticks[k], policy);
  }

  lemma {:induction false} LogGrows(ticks: seq<Tick>, m: nat, n: nat, policy: Policy)
    requires m <= n <= |ticks|
    ensures Replay(ticks[..m], policy).log <= Replay(ticks[..n], policy).log
    decreases n
  {
    hide Replay, Advance, Emitted;
    if m < n {
      LogGrows(ticks, m, n - 1, policy);
      ReplayStep(ticks, n - 1, policy);
    }
  }

  /** Until the START is asked, the renewal waits for the provider: a halted run would never ask. */
  lemma WaitsOffline(ticks: seq<Tick>, policy: Policy, k: nat, start: nat, i: nat)
    requires k <= start < |ticks| && i > 0 && Logs(ticks, start, i, policy)
    requires |Replay(ticks[..k], policy).log| >= i && Replay(ticks[..start + 1], policy).log[i].kind == StartAsked
    ensures Replay(ticks[..k], policy).state.phase == WaitOffline
  {
    hide Replay, Link;
    var run, last := Replay(ticks[..k], policy), Replay(ticks[..start + 1], policy);
    LogGrows(ticks, k, start, policy);
    LogGrows(ticks, k, start + 1, policy);
    ReplayKeepsInvariant(ticks[..k], policy);
    ReplayKeepsInvariant(ticks[..start + 1], policy);
    StartFollowsConfirmation(last.log, i, policy);
    assert ticks[..start + 1] == ticks[..k] + ticks[k..start + 1];
    if Absorbed(run.state) {
      HaltIsAbsorbing(ticks[..k], ticks[k..start + 1], policy);
    }
  }

  lemma StartFollowsConfirmation(log: seq<Event>, i: nat, policy: Policy)
    requires 0 < i < |log| && Linked(log, policy) && log[i].kind == StartAsked
    ensures log[i - 1].kind == StopConfirmed
  {
    assert Link(log, i, policy);
  }

  /** No run reaches a state that the reducer would call corrupt. */
  lemma NeverCorrupt(ticks: seq<Tick>, i: Inputs, policy: Policy)
    ensures Advance(Replay(ticks, policy).state, i, policy).reason != StateCorrupt
  {
    hide Track, Renew, Fresh, ClockContinues, Link;
    ReplayKeepsInvariant(ticks, policy);
    var run := Replay(ticks, policy);
    if Preflight(run.state, i, policy).None? {
      if run.state.phase == Tracking {
        TrackingNotCorrupt(run.state, i, policy);
      } else {
        RenewalNotCorrupt(run, i, policy);
      }
    }
  }

  lemma TrackingNotCorrupt(s: RenewalState, i: Inputs, policy: Policy)
    ensures Track(s, i, policy).reason != StateCorrupt
  {
    hide DueAt, NextDailyRenewal;
  }

  lemma RenewalNotCorrupt(run: Run, i: Inputs, policy: Policy)
    requires Busy(run)
    ensures Renew(run.state, i, policy).reason != StateCorrupt
  {
  }

  lemma ReplayExtends(ticks: seq<Tick>, t: Tick, policy: Policy)
    ensures Replay(ticks + [t], policy) == Step(Replay(ticks, policy), t, policy)
  {
    assert (ticks + [t])[..|ticks|] == ticks;
  }

  /** UNKNOWN and CANCELLED absorb: no later tick changes the state or emits anything. */
  lemma {:induction false} HaltIsAbsorbing(ticks: seq<Tick>, more: seq<Tick>, policy: Policy)
    requires Absorbed(Replay(ticks, policy).state)
    ensures Replay(ticks + more, policy) == Replay(ticks, policy)
  {
    hide Step;
    if more == [] {
      assert ticks + more == ticks;
    } else {
      var n := |more| - 1;
      HaltIsAbsorbing(ticks, more[..n], policy);
      assert ticks + more == (ticks + more[..n]) + [more[n]];
      HaltLasts(ticks + more[..n], more[n], policy);
    }
  }

  lemma HaltLasts(ticks: seq<Tick>, t: Tick, policy: Policy)
    requires Absorbed(Replay(ticks, policy).state)
    ensures Replay(ticks + [t], policy) == Replay(ticks, policy)
  {
    ReplayExtends(ticks, t, policy);
    ReplayKeepsInvariant(ticks, policy);
    HaltStays(Replay(ticks, policy), t, policy);
  }

  lemma HaltStays(run: Run, t: Tick, policy: Policy)
    requires StateOk(run.state) && Absorbed(run.state)
    ensures Step(run, t, policy) == run
  {
    assert run.log + [] == run.log;
  }

  // ----- Clocks

  /** The clocks of the ticks whose decision replaced the state. */
  function AdoptedClocks(ticks: seq<Tick>, policy: Policy): seq<Clock> {
    if ticks == [] then []
    else
      var n := |ticks| - 1;
      var s := Replay(ticks[..n], policy).state;
      AdoptedClocks(ticks[..n], policy)
      + (if Replay(ticks, policy).state != s then [ticks[n].inputs.now] else [])
  }

  /** `k` adopted ticks lead from clock `a` to clock `b`. */
  predicate ClocksAgree(a: Clock, b: Clock, k: nat, policy: Policy) {
    && a.bootId == b.bootId
    && a.elapsed <= b.elapsed
    && var drift, allowed := (b.utc - a.utc) - (b.elapsed - a.elapsed), k * policy.clockSkew * SECOND;
      -allowed <= drift <= allowed
  }

  predicate LastClockIs(s: RenewalState, clocks: seq<Clock>) {
    s.lastClock == if clocks == [] then None else Some(clocks[|clocks| - 1])
  }

  lemma AdoptionRecordsClock(s: RenewalState, t: Tick, policy: Policy)
    requires StateOk(s)
    ensures var next := Adopt(s, Advance(s, t.inputs, policy), t.save);
      next != s ==>
        && next.lastClock == Some(t.inputs.now)
        && ClockContinues(s.lastClock, t.inputs.now, policy)
        && (s.lastClock.Some? ==> s.lastClock.value.bootId == t.inputs.now.bootId)
  {
    hide DueAt, Fresh, IsId, NextDailyRenewal;
    if Preflight(s, t.inputs, policy).None? {
      if s.phase == Tracking {
        assert Track(s, t.inputs, policy).state.lastClock == Some(t.inputs.now);
      } else {
        assert Renew(s, t.inputs, policy).state.lastClock == Some(t.inputs.now);
      }
    }
  }

  /** Between any two adopted ticks the boot is one, elapsed time never decreases,
      and wall time drifts from it by at most the skew for each tick adopted. */
  lemma {:induction false} AdoptedClocksAgree(ticks: seq<Tick>, policy: Policy, i: nat, j: nat)
    requires i <= j < |AdoptedClocks(ticks, policy)|
    ensures var clocks := AdoptedClocks(ticks, policy);
      ClocksAgree(clocks[i], clocks[j], j - i, policy)
  {
    hide Step, ClocksAgree;
    var before := AdoptedClocks(ticks[..|ticks| - 1], policy);
    AdoptedClocksGrow(ticks, policy);
    if j < |before| {
      AdoptedClocksAgree(ticks[..|ticks| - 1], policy, i, j);
    } else if i < j {
      AdoptedClocksAgree(ticks[..|ticks| - 1], policy, i, j - 1);
      NextAdoptedClock(ticks, policy);
      OneMoreClock(before[i], before[j - 1], AdoptedClocks(ticks, policy)[j], j - 1 - i, policy);
    } else {
      NoDrift(AdoptedClocks(ticks, policy)[i], policy);
    }
  }

  lemma NoDrift(a: Clock, policy: Policy)
    ensures ClocksAgree(a, a, 0, policy)
  {
  }

  lemma OneMoreClock(a: Clock, b: Clock, c: Clock, k: nat, policy: Policy)
    requires ClocksAgree(a, b, k, policy)
    requires ClockContinues(Some(b), c, policy) && b.bootId == c.bootId
    ensures ClocksAgree(a, c, k + 1, policy)
  {
    assert (k + 1) * policy.clockSkew * SECOND == k * policy.clockSkew * SECOND + policy.clockSkew * SECOND;
  }

  lemma AdoptedClocksGrow(ticks: seq<Tick>, policy: Policy)
    requires ticks != []
    ensures var before, after := AdoptedClocks(ticks[..|ticks| - 1], policy), AdoptedClocks(ticks, policy);
      before <= after && |after| <= |before| + 1
  {
  }

  lemma NextAdoptedClock(ticks: seq<Tick>, policy: Policy)
    requires ticks != []
    ensures var before, after := AdoptedClocks(ticks[..|ticks| - 1], policy), AdoptedClocks(ticks, policy);
      after != before && before != [] ==>
        && |after| == |before| + 1
        && ClockContinues(Some(before[|before| - 1]), after[|before|], policy)
        && before[|before| - 1].bootId == after[|before|].bootId
  {
    var n := |ticks| - 1;
    LastAdoptedClock(ticks[..n], policy);
    ReplayKeepsInvariant(ticks[..n], policy);
    AdoptionRecordsClock(Replay(ticks[..n], policy).state, ticks[n], policy);
  }

  lemma {:induction false} LastAdoptedClock(ticks: seq<Tick>, policy: Policy)
    ensures LastClockIs(Replay(ticks, policy).state, AdoptedClocks(ticks, policy))
  {
    if ticks != [] {
      var n := |ticks| - 1;
      LastAdoptedClock(ticks[..n], policy);
      ReplayKeepsInvariant(ticks[..n], policy);
      AdoptionRecordsClock(Replay(ticks[..n], policy).state, ticks[n], policy);
    }
  }

  // ----- What a durable owner needs to know about the log

  lemma {:induction false} CommandsOfPrefix(log: seq<Event>, more: seq<Event>)
    requires |more| <= 1
    ensures Commands(log + more)
      == Commands(log) + (if more != [] && more[0].command.Some? then [more[0].command.value] else [])
  {
    if more == [] {
      assert log + more == log;
    } else {
      assert (log + more)[..|log|] == log;
    }
  }

  /** A decision with a command logs exactly that command; any other decision logs none. */
  lemma CommandIsLogged(run: Run, i: Inputs, policy: Policy)
    requires Invariant(run, policy)
    ensures var d := Advance(run.state, i, policy);
      Commands(run.log + Emitted(run.state, i, d))
      == Commands(run.log) + (if d.command.Some? then [d.command.value] else [])
  {
    hide Track, Renew, Link, IsId;
    var s, d := run.state, Advance(run.state, i, policy);
    if Preflight(s, i, policy).Some? {
      ExitShape(s, i, policy);
    } else if s.phase == Tracking {
      TrackShape(s, i, policy);
    } else {
      RenewalCommand(run, i, policy);
    }
    CommandsOfPrefix(run.log, Emitted(s, i, d));
  }

  lemma RenewalCommand(run: Run, i: Inputs, policy: Policy)
    requires Invariant(run, policy) && Busy(run)
    ensures var d := Renew(run.state, i, policy);
      var events := Emitted(run.state, i, d);
      && |events| <= 1
      && d.command == if events == [] then None else events[0].command
  {
    hide IsId, Fresh, WriterProgress, Link;
  }

  /** How the reducer's phase moves, and what each move rests on. */
  lemma PhaseMoves(run: Run, i: Inputs, policy: Policy)
    requires Invariant(run, policy)
    ensures var s, d := run.state, Advance(run.state, i, policy);
      && (d.command.Some? ==>
            if d.command.value.action == StopTwitch
            then s.phase == Tracking && d.state.phase == WaitStop
                 && d.command.value.binding.writerGeneration == i.writer.generation
            else s.phase == WaitOffline && d.state.phase == WaitStart)
      && (d.command.None? && d.state.phase != s.phase && !Absorbed(d.state) ==>
            match s.phase
            case WaitStop => d.state.phase == WaitOffline && i.outcome.Some?
            case WaitStart => d.state.phase == Verifying && i.outcome.Some?
            case _ => s.phase == Verifying && d.state.phase == Tracking)
  {
    hide Track, Renew, Link, IsId;
    var s := run.state;
    if Preflight(s, i, policy).Some? {
      ExitShape(s, i, policy);
      ExitCommands(s, i, policy);
    } else if s.phase == Tracking {
      TrackShape(s, i, policy);
    } else {
      RenewalPhases(run, i, policy);
    }
  }

  /** A tick logs an event exactly when it moves the renewal on, and that event is a command exactly in the two phases
      that end by asking for one. */
  lemma EventsAreMoves(run: Run, i: Inputs, policy: Policy)
    requires Invariant(run, policy) && !Absorbed(run.state)
    ensures var s, d := run.state, Advance(run.state, i, policy);
      && (Emitted(s, i, d) != [] <==> d.state.phase !in {s.phase, Unknown, Cancelled})
      && (d.command.Some? <==> Emitted(s, i, d) != [] && s.phase in {Tracking, WaitOffline})
      && (d.verdict == Renewed ==> Emitted(s, i, d) != [])
      && (Emitted(s, i, d) != [] ==>
            d.state.phase == match s.phase
                             case Tracking => WaitStop
                             case WaitStop => WaitOffline
                             case WaitOffline => WaitStart
                             case WaitStart => Verifying
                             case _ => Tracking)
  {
    hide Track, Renew, Link, IsId;
    var s := run.state;
    if Preflight(s, i, policy).Some? {
      ExitShape(s, i, policy);
      ExitCommands(s, i, policy);
    } else if s.phase == Tracking {
      TrackShape(s, i, policy);
    } else if Renew(s, i, policy).state.phase in {s.phase, Unknown} {
      RenewalWaits(run, i, policy);
      RenewalPhases(run, i, policy);
    } else {
      RenewalShape(s, i, policy);
    }
  }

  lemma ExitCommands(s: RenewalState, i: Inputs, policy: Policy)
    requires Preflight(s, i, policy).Some?
    ensures Advance(s, i, policy).command.None?
  {
    hide Fresh, IsId;
  }

  lemma RenewalPhases(run: Run, i: Inputs, policy: Policy)
    requires Busy(run)
    ensures var s, d := run.state, Renew(run.state, i, policy);
      && (d.command.Some? ==>
            d.command.value.action == StartTwitch && s.phase == WaitOffline && d.state.phase == WaitStart)
      && (d.command.None? && d.state.phase != s.phase && !Absorbed(d.state) ==>
            match s.phase
            case WaitStop => d.state.phase == WaitOffline && i.outcome.Some?
            case WaitStart => d.state.phase == Verifying && i.outcome.Some?
            case _ => s.phase == Verifying && d.state.phase == Tracking)
  {
    hide IsId, Fresh, WriterProgress;
  }

  /** The last command of a run is the one that its state is waiting on or has just seen answered. */
  lemma LastCommand(run: Run, policy: Policy)
    requires Invariant(run, policy)
    ensures var cs := Commands(run.log);
      && (run.state.phase in {WaitStop, WaitOffline} ==>
            && |cs| > 0 && run.state.binding.Some?
            && cs[|cs| - 1] == Command(StopTwitch, StopRequest(run.state.operation), run.state.binding.value))
      && (run.state.phase in {WaitStart, Verifying} ==>
            && |cs| > 1 && run.state.binding.Some?
            && cs[|cs| - 1] == Command(StartTwitch, StartRequest(run.state.operation), run.state.binding.value))
      && (run.state.phase == Tracking ==> |cs| % 2 == 0)
  {
    hide Link;
    LogCommands(run.log, policy);
    var cs := Commands(run.log);
    if run.state.phase in {WaitStart, Verifying} {
      StartClosesPair(cs, run.log[|run.log| - 1]);
    }
  }

  lemma StartClosesPair(cs: seq<Command>, last: Event)
    requires Alternating(cs) && EndsStarted(cs, last)
    ensures cs[|cs| - 1] == Command(StartTwitch, StartRequest(last.operation), last.binding)
  {
    assert InTurn(cs, |cs| - 1);
  }

  lemma {:induction false} CommandComesFromLog(log: seq<Event>, k: nat)
    requires k < |Commands(log)|
    ensures exists i :: 0 <= i < |log| && log[i].command == Some(Commands(log)[k])
  {
    var n := |log| - 1;
    if k < |Commands(log[..n])| {
      CommandComesFromLog(log[..n], k);
      var i :| 0 <= i < n && log[..n][i].command == Some(Commands(log[..n])[k]);
      assert log[i].command == Some(Commands(log)[k]);
    } else {
      assert log[n].command == Some(Commands(log)[k]);
    }
  }
}
