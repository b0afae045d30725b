/** The Twitch session renewal reducer (ops/relay/twitch_session.py).

    Times are integers in microseconds, the resolution of the program's `datetime`;
    the seconds of a policy are scaled by SECOND.  An operation ID is the tuple that
    the program hashes, so it is injective by construction.
 */
module TwitchSession {
  import opened Options

  const SECOND := 1_000_000
  const DAY := 86_400 * SECOND
  const JST_OFFSET := 9 * 3_600 * SECOND
  const MAX_BROADCAST_SECONDS := 48 * 3_600

  // ----- Policy and schedule

  datatype RenewalPolicy = RenewalPolicy(
    renewTimeJst: string,
    renewAfter: int,
    offlineWait: int,
    renewalTimeout: int,
    evidenceMaxAge: int,
    clockSkew: int)

  predicate IsDigit(c: char) {
    '0' <= c <= '9'
  }

  /** `HH:MM` on a 24-hour clock. */
  predicate IsTimeOfDay(s: string) {
    && |s| == 5
    && ((s[0] in "01" && IsDigit(s[1])) || (s[0] == '2' && '0' <= s[1] <= '3'))
    && s[2] == ':' && '0' <= s[3] <= '5' && IsDigit(s[4])
  }

  predicate Accepted(p: RenewalPolicy) {
    && IsTimeOfDay(p.renewTimeJst)
    && p.renewAfter > 0 && p.offlineWait > 0 && p.renewalTimeout > 0 && p.evidenceMaxAge > 0 && p.clockSkew > 0
    && p.renewAfter >= 3_600
    && 90 < p.offlineWait < p.renewalTimeout
    && p.renewAfter + p.renewalTimeout + p.clockSkew < MAX_BROADCAST_SECONDS
  }

  const DEFAULT_POLICY := RenewalPolicy("00:00", 47 * 3_600, 120, 600, 60, 5)

  /** The policies that the program's constructor lets exist. */
  type Policy = p: RenewalPolicy | Accepted(p) witness DEFAULT_POLICY

  function DigitValue(c: char): nat
    requires IsDigit(c)
  {
    c as int - '0' as int
  }

  /** Microseconds after midnight of an `HH:MM` string. */
  function TimeOfDay(s: string): (t: nat)
    requires IsTimeOfDay(s)
    ensures t < DAY && t % (60 * SECOND) == 0
  {
    var hour := 10 * DigitValue(s[0]) + DigitValue(s[1]);
    var minute := 10 * DigitValue(s[3]) + DigitValue(s[4]);
    (60 * hour + minute) * 60 * SECOND
  }

  /** What a JST wall clock shows at a UTC instant, as microseconds after midnight. */
  function JstClock(utc: int): nat {
    (utc + JST_OFFSET) % DAY
  }

  function NextDailyRenewal(startedAt: int, policy: Policy): int {
    var local := startedAt + JST_OFFSET;
    var scheduled := local - local % DAY + TimeOfDay(policy.renewTimeJst);
    (if scheduled <= local then scheduled + DAY else scheduled) - JST_OFFSET
  }

  function DueAt(startedAt: int, policy: Policy): int {
    var scheduled := NextDailyRenewal(startedAt, policy);
    var ageGuard := startedAt + policy.renewAfter * SECOND;
    if scheduled <= ageGuard then scheduled else ageGuard
  }

  /** The schedule is the first instant after the start whose JST clock reads the renewal time. */
  lemma NextRenewalIsLeast(startedAt: int, policy: Policy)
    ensures var next := NextDailyRenewal(startedAt, policy);
      && startedAt < next <= startedAt + DAY
      && JstClock(next) == TimeOfDay(policy.renewTimeJst)
      && forall t :: startedAt < t < next ==> JstClock(t) != TimeOfDay(policy.renewTimeJst)
  {
    var time := TimeOfDay(policy.renewTimeJst);
    var next := NextDailyRenewal(startedAt, policy);
    var local := startedAt + JST_OFFSET;
    Midnight(local, time);
    forall t | startedAt < t < next
      ensures JstClock(t) != time
    {
      BetweenRenewals(local, t + JST_OFFSET, time);
    }
  }

  lemma Midnight(local: int, time: nat)
    requires time < DAY
    ensures (local - local % DAY + time) % DAY == time == (local - local % DAY + time + DAY) % DAY
  {
    ClockAt(local / DAY, time);
    ClockAt(local / DAY + 1, time);
  }

  /** No clock reads `time` between `local` and the next scheduled instant. */
  lemma BetweenRenewals(local: int, later: int, time: nat)
    requires time < DAY && local < later
    requires var scheduled := local - local % DAY + time;
      later < if scheduled <= local then scheduled + DAY else scheduled
    ensures later % DAY != time
  {
    var days, day := local / DAY, later / DAY;
    assert local == days * DAY + local % DAY && later == day * DAY + later % DAY;
  }

  lemma ClockAt(days: int, time: nat)
    requires time < DAY
    ensures (days * DAY + time) % DAY == time
  {
    assert (days * DAY + time) / DAY == days;
  }

  /** Every accepted policy completes or times out before the provider's 48-hour limit. */
  lemma DueBeforeBroadcastLimit(startedAt: int, policy: Policy)
    ensures startedAt < DueAt(startedAt, policy) <= startedAt + DAY
    ensures DueAt(startedAt, policy) + (policy.renewalTimeout + policy.clockSkew) * SECOND
      < startedAt + MAX_BROADCAST_SECONDS * SECOND
  {
    NextRenewalIsLeast(startedAt, policy);
  }

  // ----- State records

  datatype Phase = Tracking | WaitStop | WaitOffline | WaitStart | Verifying | Cancelled | Unknown

  datatype Action = StopTwitch | StartTwitch

  datatype BroadcastStatus = Live | Offline | BroadcastUnknown

  datatype WriterStatus = Running | Stopped | WriterUnknown

  datatype OutcomeStatus = AcceptedOnly | StopObserved | StartObserved | OutcomeUnknown

  datatype ClockReading = ClockReading(utc: int, elapsed: int, bootId: string)

  type Clock = c: ClockReading | c.elapsed >= 0 && c.bootId != "" witness ClockReading(0, 0, "boot")

  datatype Session = Session(streamId: string, startedAt: int)

  datatype BroadcastFacts = BroadcastFacts(
    broadcasterId: string, observedAt: int, status: BroadcastStatus, session: Option<Session>)

  datatype WriterFacts = WriterFacts(
    observedAt: int, relayInstance: string, generation: int, status: WriterStatus, progressAge: Option<int>)

  datatype RouteContext = RouteContext(
    broadcasterId: string, routeState: string, routeGeneration: int, authorityEpoch: int,
    relayInstance: string, leaseBootId: string, leaseExpiresElapsed: int, inputFresh: bool,
    maintenanceAuthorized: bool, effectsEnabled: bool, routeChangePending: bool)

  datatype Binding = Binding(
    broadcasterId: string, routeGeneration: int, authorityEpoch: int,
    relayInstance: string, bootId: string, writerGeneration: int)

  datatype OperationId =
    | NoOperation
    | Operation(binding: Binding, streamId: string, startedAt: int)

  datatype RequestId =
    | StopRequest(operation: OperationId)
    | StartRequest(operation: OperationId)
    | FaultStop(relayInstance: string, handlerId: string)

  datatype Command = Command(action: Action, requestId: RequestId, binding: Binding)

  datatype Outcome = Outcome(
    action: Action, requestId: RequestId, binding: Binding, status: OutcomeStatus, observedAt: int)

  datatype RenewalState = RenewalState(
    revision: int,
    phase: Phase,
    session: Option<Session>,
    binding: Option<Binding>,
    operation: OperationId,
    beganAt: Option<int>,
    stoppedClock: Option<Clock>,
    startRequestedAt: Option<int>,
    lastClock: Option<Clock>,
    lastCompleted: OperationId)

  const INITIAL_STATE := RenewalState(0, Tracking, None, None, NoOperation, None, None, None, None, NoOperation)

  datatype Verdict =
    | VerdictUnknown | VerdictCancelled | Blocked | BeforeRenewal | StopRequested | StartRequested | Waiting | Renewed

  datatype Reason =
    | StateCorrupt | OwnerReconciliationRequired | ClockBootChanged | ClockDiscontinuity
    | RouteHandoff | RouteInactive | BindingSuperseded | GrantMissing | LeaseOrInputInvalid
    | WriterOrTargetInvalid | BroadcasterMismatch | DeadlineExceeded
    | SessionInvalid | SessionRegressed | StartUnconfirmed | StartInFuture | WriterProgressUnconfirmed
    | SessionBeforeRenewal | ValidationDue | DailyRenewalDue | AgeGuardDue
    | CommandOutcomeUnknown | StopNotConfirmed | OldWriterUnconfirmed | WriterStopped
    | WriterReappeared | OfflineHold | OfflineUnconfirmed | OfflineConfirmed
    | StartNotConfirmed | NewWriterUnconfirmed | WriterStarted | NewBroadcastUnconfirmed | NewBroadcastVerified

  datatype Decision = Decision(state: RenewalState, verdict: Verdict, reason: Reason, command: Option<Command>)

  /** Everything one owner-loop tick supplies to the reducer. */
  datatype Inputs = Inputs(
    now: Clock, context: RouteContext, broadcast: BroadcastFacts, writer: WriterFacts,
    outcome: Option<Outcome>, validationAuthorized: bool)

  // ----- The reducer

  predicate IsId(s: string) {
    |s| > 0 && forall k :: 0 <= k < |s| ==> IsDigit(s[k])
  }

  predicate Fresh(at: int, now: Clock, policy: Policy) {
    0 <= now.utc - at <= policy.evidenceMaxAge * SECOND
  }

  predicate WriterProgress(writer: WriterFacts, policy: Policy) {
    && writer.status == Running
    && writer.progressAge.Some?
    && 0 <= writer.progressAge.value <= policy.evidenceMaxAge * SECOND
  }

  predicate SessionOk(session: Option<Session>) {
    session.Some? ==> IsId(session.value.streamId)
  }

  predicate BindingOk(binding: Option<Binding>) {
    binding.Some? ==>
      && IsId(binding.value.broadcasterId)
      && binding.value.writerGeneration > 0
      && binding.value.routeGeneration > 0
      && binding.value.authorityEpoch > 0
  }

  predicate ClockContinues(previous: Option<Clock>, now: Clock, policy: Policy) {
    previous.Some? ==>
      && previous.value.elapsed <= now.elapsed
      && -(policy.clockSkew * SECOND)
         <= (now.utc - previous.value.utc) - (now.elapsed - previous.value.elapsed)
         <= policy.clockSkew * SECOND
  }

  predicate BindingHolds(bound: Binding, i: Inputs) {
    && bound.broadcasterId == i.context.broadcasterId
    && bound.routeGeneration == i.context.routeGeneration
    && bound.authorityEpoch == i.context.authorityEpoch
    && bound.relayInstance == i.context.relayInstance
    && bound.bootId == i.now.bootId
  }

  predicate TargetOk(i: Inputs, policy: Policy) {
    && IsId(i.context.broadcasterId)
    && i.context.routeGeneration > 0
    && i.context.authorityEpoch > 0
    && i.context.relayInstance != ""
    && Fresh(i.writer.observedAt, i.now, policy)
    && i.writer.relayInstance == i.context.relayInstance
    && i.writer.generation > 0
  }

  predicate ProviderFresh(i: Inputs, policy: Policy) {
    Fresh(i.broadcast.observedAt, i.now, policy) && i.broadcast.broadcasterId == i.context.broadcasterId
  }

  /** The state that every recorded tick starts from: one revision later, with the tick's clock. */
  function Recorded(s: RenewalState, now: Clock): RenewalState {
    s.(revision := s.revision + 1, lastClock := Some(now))
  }

  function Record(s: RenewalState, now: Clock, verdict: Verdict, reason: Reason): Decision {
    Decision(Recorded(s, now), verdict, reason, None)
  }

  function RecordPhase(s: RenewalState, now: Clock, verdict: Verdict, reason: Reason, phase: Phase): Decision {
    Decision(Recorded(s, now).(phase := phase), verdict, reason, None)
  }

  /** The checks that precede every phase; None means that the phase decides. */
  function Preflight(s: RenewalState, i: Inputs, policy: Policy): Option<Decision> {
    if s.revision < 0 then
      Some(Decision(s, VerdictUnknown, StateCorrupt, None))
    else if !SessionOk(s.session) || !BindingOk(s.binding) then
      Some(RecordPhase(s, i.now, VerdictUnknown, StateCorrupt, Unknown))
    else if s.phase == Unknown then
      Some(Decision(s, VerdictUnknown, OwnerReconciliationRequired, None))
    else if s.phase == Cancelled then
      Some(Decision(s, VerdictCancelled, OwnerReconciliationRequired, None))
    else if s.lastClock.Some? && s.lastClock.value.bootId != i.now.bootId then
      Some(Decision(s, VerdictUnknown, ClockBootChanged, None))
    else if !ClockContinues(s.lastClock, i.now, policy) then
      Some(Decision(s, VerdictUnknown, ClockDiscontinuity, None))
    else if i.context.routeState !in {"PRIMARY", "PRIMARY_DEGRADED"} || i.context.routeChangePending then
      if s.binding.Some? then
        Some(RecordPhase(s, i.now, VerdictCancelled, RouteHandoff, Cancelled))
      else
        Some(Record(s, i.now, Blocked, RouteInactive))
    else if s.binding.Some? && !BindingHolds(s.binding.value, i) then
      Some(RecordPhase(s, i.now, VerdictCancelled, BindingSuperseded, Cancelled))
    else if !i.context.effectsEnabled || !i.context.maintenanceAuthorized then
      Some(Record(s, i.now, Blocked, GrantMissing))
    else if i.context.leaseBootId != i.now.bootId || i.context.leaseExpiresElapsed <= i.now.elapsed
       || !i.context.inputFresh then
      Some(Record(s, i.now, Blocked, LeaseOrInputInvalid))
    else if !TargetOk(i, policy) then
      Some(Record(s, i.now, VerdictUnknown, WriterOrTargetInvalid))
    else if i.broadcast.broadcasterId != i.context.broadcasterId then
      Some(Record(s, i.now, VerdictUnknown, BroadcasterMismatch))
    else if s.beganAt.Some? && i.now.utc - s.beganAt.value >= policy.renewalTimeout * SECOND then
      Some(RecordPhase(s, i.now, VerdictUnknown, DeadlineExceeded, Unknown))
    else
      None
  }

  function Advance(s: RenewalState, i: Inputs, policy: Policy): Decision {
    var exit := Preflight(s, i, policy);
    if exit.Some? then exit.value
    else if s.phase == Tracking then Track(s, i, policy)
    else Renew(s, i, policy)
  }

  function Track(s: RenewalState, i: Inputs, policy: Policy): Decision {
    var live := ProviderFresh(i, policy) && i.broadcast.status == Live;
    if live && (i.broadcast.session.None? || !IsId(i.broadcast.session.value.streamId)) then
      Record(s, i.now, VerdictUnknown, SessionInvalid)
    else if live && s.session.Some? && i.broadcast.session != s.session
      && (i.broadcast.session.value.streamId == s.session.value.streamId
          || i.broadcast.session.value.startedAt <= s.session.value.startedAt) then
      Record(s, i.now, VerdictUnknown, SessionRegressed)
    else
      var session := if live then i.broadcast.session else s.session;
      if session.None? then
        Record(s, i.now, VerdictUnknown, StartUnconfirmed)
      else if i.now.utc < session.value.startedAt then
        Record(s, i.now, VerdictUnknown, StartInFuture)
      else if !WriterProgress(i.writer, policy) then
        Decision(Recorded(s, i.now).(session := session), VerdictUnknown, WriterProgressUnconfirmed, None)
      else if i.now.utc < DueAt(session.value.startedAt, policy) && !i.validationAuthorized then
        Decision(Recorded(s, i.now).(session := session), BeforeRenewal, SessionBeforeRenewal, None)
      else
        RequestStop(s, i, session.value, policy)
  }

  function BindingFor(i: Inputs): Binding {
    Binding(i.context.broadcasterId, i.context.routeGeneration, i.context.authorityEpoch,
            i.context.relayInstance, i.now.bootId, i.writer.generation)
  }

  function RequestStop(s: RenewalState, i: Inputs, session: Session, policy: Policy): Decision {
    var reason :=
      if i.validationAuthorized then ValidationDue
      else if NextDailyRenewal(session.startedAt, policy) <= session.startedAt + policy.renewAfter * SECOND then
        DailyRenewalDue
      else AgeGuardDue;
    var binding := BindingFor(i);
    var operation := Operation(binding, session.streamId, session.startedAt);
    var command := Command(StopTwitch, StopRequest(operation), binding);
    Decision(
      Recorded(s, i.now).(phase := WaitStop, session := Some(session), binding := Some(binding),
                          operation := operation, beganAt := Some(i.now.utc)),
      StopRequested, reason, Some(command))
  }

  /** The outcome answers the command that the phase is waiting for. */
  predicate OutcomeMatches(s: RenewalState, i: Inputs, policy: Policy)
    requires s.binding.Some?
  {
    var issuedAt := if s.phase == WaitStop then s.beganAt else s.startRequestedAt;
    var action := if s.phase == WaitStop then StopTwitch else StartTwitch;
    var requestId := if s.phase == WaitStop then StopRequest(s.operation) else StartRequest(s.operation);
    && s.phase in {WaitStop, WaitStart}
    && i.outcome.Some?
    && i.outcome.value.action == action
    && i.outcome.value.requestId == requestId
    && i.outcome.value.binding == s.binding.value
    && Fresh(i.outcome.value.observedAt, i.now, policy)
    && issuedAt.Some?
    && issuedAt.value <= i.outcome.value.observedAt
  }

  function Renew(s: RenewalState, i: Inputs, policy: Policy): Decision {
    if s.binding.None? || s.session.None? || s.operation == NoOperation || s.beganAt.None? then
      RecordPhase(s, i.now, VerdictUnknown, StateCorrupt, Unknown)
    else if OutcomeMatches(s, i, policy) && i.outcome.value.status == OutcomeUnknown then
      RecordPhase(s, i.now, VerdictUnknown, CommandOutcomeUnknown, Unknown)
    else match s.phase
      case WaitStop => AwaitStop(s, i, policy)
      case WaitOffline => AwaitOffline(s, i, policy)
      case WaitStart => AwaitStart(s, i, policy)
      case Verifying => Verify(s, i, policy)
      case _ => RecordPhase(s, i.now, VerdictUnknown, StateCorrupt, Unknown)
  }

  function AwaitStop(s: RenewalState, i: Inputs, policy: Policy): Decision
    requires s.binding.Some?
  {
    if !OutcomeMatches(s, i, policy) || i.outcome.value.status != StopObserved then
      Record(s, i.now, Waiting, StopNotConfirmed)
    else if i.writer.status != Stopped || i.writer.generation != s.binding.value.writerGeneration
      || i.writer.observedAt < i.outcome.value.observedAt then
      Record(s, i.now, Waiting, OldWriterUnconfirmed)
    else
      Decision(Recorded(s, i.now).(phase := WaitOffline, stoppedClock := Some(i.now)), Waiting, WriterStopped, None)
  }

  function AwaitOffline(s: RenewalState, i: Inputs, policy: Policy): Decision
    requires s.binding.Some?
  {
    if s.stoppedClock.None? then
      RecordPhase(s, i.now, VerdictUnknown, StateCorrupt, Unknown)
    else if i.writer.status != Stopped || i.writer.generation != s.binding.value.writerGeneration then
      RecordPhase(s, i.now, VerdictUnknown, WriterReappeared, Unknown)
    else if i.now.elapsed - s.stoppedClock.value.elapsed < policy.offlineWait * SECOND then
      Record(s, i.now, Waiting, OfflineHold)
    else if !ProviderFresh(i, policy) || i.broadcast.status != Offline
      || i.broadcast.observedAt < s.stoppedClock.value.utc then
      Record(s, i.now, Waiting, OfflineUnconfirmed)
    else
      var command := Command(StartTwitch, StartRequest(s.operation), s.binding.value);
      Decision(Recorded(s, i.now).(phase := WaitStart, startRequestedAt := Some(i.now.utc)),
               StartRequested, OfflineConfirmed, Some(command))
  }

  function AwaitStart(s: RenewalState, i: Inputs, policy: Policy): Decision
    requires s.binding.Some?
  {
    if !OutcomeMatches(s, i, policy) || i.outcome.value.status != StartObserved then
      Record(s, i.now, Waiting, StartNotConfirmed)
    else if i.writer.generation != s.binding.value.writerGeneration + 1 || !WriterProgress(i.writer, policy)
      || i.writer.observedAt < i.outcome.value.observedAt then
      Record(s, i.now, Waiting, NewWriterUnconfirmed)
    else
      RecordPhase(s, i.now, Waiting, WriterStarted, Verifying)
  }

  function Verify(s: RenewalState, i: Inputs, policy: Policy): Decision
    requires s.binding.Some? && s.session.Some?
  {
    var renewed := i.broadcast.session;
    if i.writer.generation != s.binding.value.writerGeneration + 1 || !WriterProgress(i.writer, policy)
      || !ProviderFresh(i, policy) || i.broadcast.status != Live || renewed.None? || s.startRequestedAt.None?
      || !IsId(renewed.value.streamId)
      || renewed.value.streamId == s.session.value.streamId || renewed.value.startedAt <= s.session.value.startedAt
      || renewed.value.startedAt < s.startRequestedAt.value - policy.clockSkew * SECOND
      || renewed.value.startedAt > i.now.utc then
      Record(s, i.now, Waiting, NewBroadcastUnconfirmed)
    else
      Decision(
        Recorded(s, i.now).(phase := Tracking, session := renewed, binding := None, lastCompleted := s.operation,
                            operation := NoOperation, beganAt := None, stoppedClock := None, startRequestedAt := None),
        Renewed, NewBroadcastVerified, None)
  }

  // ----- Runs: the owner adopts a decision when it must, and may drop any other one

  /** One tick of a run; `save` is the owner's choice to persist a decision that changed nothing. */
  datatype Tick = Tick(inputs: Inputs, save: bool)

  predicate MustCommit(s: RenewalState, d: Decision) {
    d.state.phase != s.phase || d.command.Some? || d.verdict == Renewed
  }

  function Adopt(s: RenewalState, d: Decision, save: bool): RenewalState {
    if MustCommit(s, d) || save then d.state else s
  }

  datatype EventKind = StopAsked | StopConfirmed | StartAsked | StartConfirmed | SessionRenewed

  /** What a run did, with the session, operation and binding it did it for. */
  datatype Event = Event(
    kind: EventKind, inputs: Inputs, session: Session, operation: OperationId,
    binding: Binding, command: Option<Command>)

  function EventKindOf(s: RenewalState, d: Decision): Option<EventKind> {
    if d.command.Some? then Some(if d.command.value.action == StopTwitch then StopAsked else StartAsked)
    else if s.phase == WaitStop && d.state.phase == WaitOffline then Some(StopConfirmed)
    else if s.phase == WaitStart && d.state.phase == Verifying then Some(StartConfirmed)
    else if d.verdict == Renewed then Some(SessionRenewed)
    else None
  }

  function Emitted(s: RenewalState, i: Inputs, d: Decision): seq<Event> {
    var kind := EventKindOf(s, d);
    // A renewal forgets the operation, so its event names the one that it completes.
    var source := if d.verdict == Renewed then s else d.state;
    if kind.None? || d.state.session.None? || source.binding.None? then []
    else [Event(kind.value, i, d.state.session.value, source.operation, source.binding.value, d.command)]
  }

  datatype Run = Run(state: RenewalState, log: seq<Event>)

  function Apply(run: Run, t: Tick, d: Decision): Run {
    Run(Adopt(run.state, d, t.save), run.log + Emitted(run.state, t.inputs, d))
  }

  function Step(run: Run, t: Tick, policy: Policy): Run {
    Apply(run, t, Advance(run.state, t.inputs, policy))
  }

  function Replay(ticks: seq<Tick>, policy: Policy): Run {
    if ticks == [] then Run(INITIAL_STATE, [])
    else Step(Replay(ticks[..|ticks| - 1], policy), ticks[|ticks| - 1], policy)
  }
}
