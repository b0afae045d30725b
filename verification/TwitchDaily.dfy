/** The daily renewal owner (ops/relay/twitch_daily.py): its durable journal, and the process
    around it as a machine whose every move makes at most one durable change, so that a crash
    can fall between any two of them.
 */
module TwitchDaily {
  import opened Options
  import opened TwitchSession
  import opened TwitchRuns

  // ----- The journal tables and their transactions

  datatype RowPhase = Pending | Dispatching | Observed

  datatype Row = Row(command: Command, phase: RowPhase, attempts: int, outcome: Option<Outcome>)

  datatype Writer = Writer(generation: int, handlerId: Option<string>, legacyQuiesced: bool)

  datatype Db = Db(state: RenewalState, outbox: map<RequestId, Row>, writer: Writer)

  function InitialDb(handlerId: Option<string>): Db {
    Db(INITIAL_STATE, map[], Writer(1, handlerId, false))
  }

  /** None is a transaction that rolled back and raised. */
  function CommitTx(db: Db, was: RenewalState, next: RenewalState, command: Option<Command>): Option<Db> {
    if db.state.revision != was.revision then None
    else if command.None? then Some(db.(state := next))
    else if command.value.requestId in db.outbox then None
    else Some(db.(state := next, outbox := db.outbox[command.value.requestId := Row(command.value, Pending, 0, None)]))
  }

  function DispatchTx(db: Db, command: Command): Option<Db> {
    if command.requestId in db.outbox && db.outbox[command.requestId].phase == Pending
      && db.outbox[command.requestId].attempts == 0 then
      var row := db.outbox[command.requestId].(phase := Dispatching, attempts := 1);
      Some(db.(outbox := db.outbox[command.requestId := row]))
    else None
  }

  function FinishTx(db: Db, command: Command, outcome: Outcome, handlerId: Option<string>): Option<Db> {
    if command.requestId in db.outbox && db.outbox[command.requestId].phase == Dispatching
      && db.outbox[command.requestId].attempts == 1 then
      var row := db.outbox[command.requestId].(phase := Observed, outcome := Some(outcome));
      var outbox := db.outbox[command.requestId := row];
      if command.action == StopTwitch then
        Some(db.(outbox := outbox, writer := db.writer.(legacyQuiesced := true)))
      else if handlerId.None? || handlerId.value == "" then None
      else
        Some(db.(outbox := outbox,
                 writer := db.writer.(generation := command.binding.writerGeneration + 1, handlerId := handlerId)))
    else None
  }

  function Unresolved(db: Db): set<RequestId> {
    set id | id in db.outbox && db.outbox[id].phase != Observed
  }

  function OutcomeOf(db: Db, s: RenewalState): Option<Outcome> {
    var id := if s.phase == WaitStop then StopRequest(s.operation) else StartRequest(s.operation);
    if id in db.outbox then db.outbox[id].outcome else None
  }

  // ----- The relay's forward list

  datatype Provider = YouTube | Twitch | OtherProvider

  /** A destination and the provider that its URL classifies as. */
  datatype Destination = Destination(url: string, provider: Provider)

  function ForwardUpdate(current: seq<Destination>, twitch: Destination, action: Action): Option<seq<Destination>> {
    if |current| !in {1, 2} || current[0].provider != YouTube || twitch.provider != Twitch then None
    else if |current| == 2 && (current[1].provider != Twitch || current[1] != twitch) then None
    else Some([current[0]] + (if action == StartTwitch then [twitch] else []))
  }

  // ----- The process

  datatype Approval = Approval(
    broadcasterId: string, routeGeneration: int, authorityEpoch: int, relayInstance: string,
    twitchHandler: Option<string>, forward: seq<Destination>)

  datatype TwitchRow = TwitchRow(id: string, forwarding: bool, lastError: bool, outboundBytes: int)

  datatype Seen = Seen(twitchDisabled: bool, leaseDeadline: int, tw: Option<TwitchRow>)

  /** The Twitch row that an observation before a poll of the provider found, and when. */
  datatype Earlier = Earlier(elapsed: int, tw: Option<TwitchRow>)

  /** What one iteration of the loop reads; `earlier` is the first of two observations when it polled, and `seen`
      is None when the last observation of the relay raised. */
  datatype Reading = Reading(earlier: Option<Earlier>, now: Clock, seen: Option<Seen>,
      facts: BroadcastFacts, validation: bool)

  /** The volatile variables of the process. */
  datatype Memory = Memory(
    bootId: string, state: RenewalState, pending: Option<Command>, dispatchStarted: int, lastSave: int,
    twitchBytes: int, twitchProgressAt: int)

  /** How an iteration ends early; only a forwarding fault may ask for the failure stop. */
  datatype Raise = NoRaise | OrdinaryRaise | ForwardRaise

  datatype Process =
    | Down
    | Exited
    | Ready(mem: Memory)
    | Looked(mem: Memory, reading: Reading, writer: WriterFacts, outcome: Option<Outcome>)
    | Committed(mem: Memory, command: Command, at: int)
    | Dispatched(mem: Memory, command: Command, at: int)
    | Faulting(mem: Memory, rescue: bool)
    | RescueCommitted(command: Command)
    | RescueDispatched(command: Command)

  function ObserveRelay(mem: Memory, elapsed: int, tw: Option<TwitchRow>): Memory {
    mem.(twitchProgressAt := if tw.Some? && tw.value.outboundBytes > mem.twitchBytes then elapsed
                               else mem.twitchProgressAt,
         twitchBytes := if tw.Some? then tw.value.outboundBytes else 0)
  }

  function ObserveEarlier(mem: Memory, earlier: Option<Earlier>): Memory {
    if earlier.None? then mem else ObserveRelay(mem, earlier.value.elapsed, earlier.value.tw)
  }

  function WriterStatusOf(seen: Seen): WriterStatus {
    if seen.tw.None? then (if seen.twitchDisabled then Stopped else WriterUnknown)
    else if seen.tw.value.forwarding && !seen.tw.value.lastError then Running
    else WriterUnknown
  }

  function WriterOf(a: Approval, db: Db, mem: Memory, now: Clock, seen: Seen): WriterFacts {
    var status := WriterStatusOf(seen);
    var generation :=
      if mem.state.binding.Some? && mem.state.phase in {WaitStart, Verifying} && seen.tw.Some?
      then mem.state.binding.value.writerGeneration + 1
      else db.writer.generation;
    WriterFacts(now.utc, a.relayInstance, generation, status,
                if status == Running then Some(now.elapsed - mem.twitchProgressAt) else None)
  }

  function ReadingFault(db: Db, mem: Memory, now: Clock, seen: Seen): Raise {
    var tracking := mem.state.phase == Tracking;
    if tracking && seen.twitchDisabled && !db.writer.legacyQuiesced then OrdinaryRaise
    else if tracking && seen.tw.None? then OrdinaryRaise
    else if tracking && db.writer.handlerId.Some? && db.writer.handlerId.value != ""
      && seen.tw.value.id != db.writer.handlerId.value then OrdinaryRaise
    else if tracking && db.writer.legacyQuiesced && now.elapsed - mem.twitchProgressAt > 15 * SECOND then ForwardRaise
    else if seen.tw.Some? && seen.tw.value.lastError then ForwardRaise
    else NoRaise
  }

  /** The relay shows the physical effect of the dispatched command. */
  predicate Settled(command: Command, writer: WriterFacts) {
    if command.action == StopTwitch then writer.status == Stopped
    else writer.status == Running && writer.progressAge.Some? && writer.progressAge.value < 2 * SECOND
  }

  function SettledOutcome(command: Command, now: Clock): Outcome {
    Outcome(command.action, command.requestId, command.binding,
            if command.action == StopTwitch then StopObserved else StartObserved, now.utc)
  }

  function InputsOf(a: Approval, p: Process): Inputs
    requires p.Looked? && p.reading.seen.Some?
  {
    var now := p.reading.now;
    Inputs(now,
           RouteContext(a.broadcasterId, "PRIMARY", a.routeGeneration, a.authorityEpoch, a.relayInstance,
                        now.bootId, p.reading.seen.value.leaseDeadline, true, true, true, false),
           p.reading.facts, p.writer, p.outcome,
           p.reading.validation && p.mem.state.phase == Tracking)
  }

  // ----- The machine

  /** The reducer run that the durable state came from, and the commands it issued. */
  datatype History = History(ticks: seq<Tick>, run: Run, issued: seq<Command>)

  /** `changes` lists the commands that reached the relay, in order; `forward` is the relay's list. */
  datatype World = World(db: Db, process: Process, changes: seq<Command>, forward: seq<Destination>, history: History)

  datatype Move =
    | Boot(bootId: string, granted: bool)
    | Look(reading: Reading)
    | Decide
    | Dispatch
    | Change(seen: Option<Seen>, applied: bool, raise: Raise)
    | Rescue(handlerId: Option<string>)
    | RescueDispatch
    | RescueChange(applied: bool)
    | Interrupt(raise: Raise)
    | Exit
    | Crash

  function InitialWorld(a: Approval): World {
    World(InitialDb(a.twitchHandler), Down, [], a.forward, History([], Run(INITIAL_STATE, []), []))
  }

  function BootMove(w: World, bootId: string, granted: bool): World {
    if Unresolved(w.db) != {} then w.(process := Exited)
    else if w.db.state.lastClock.Some? && w.db.state.lastClock.value.bootId != bootId then w.(process := Exited)
    else if !granted then w.(process := Exited)
    else w.(process := Ready(Memory(bootId, w.db.state, None, 0, 0, 0, 0)))
  }

  function Fail(w: World, mem: Memory, raise: Raise): World {
    w.(process := Faulting(mem, raise == ForwardRaise))
  }

  function LookMove(a: Approval, w: World, before: Memory, r: Reading): World {
    var polled := ObserveEarlier(before, r.earlier);
    if r.seen.None? then Fail(w, polled, OrdinaryRaise)
    else
      var seen := r.seen.value;
      var mem := ObserveRelay(polled, r.now.elapsed, seen.tw);
      var fault := ReadingFault(w.db, mem, r.now, seen);
      var writer := WriterOf(a, w.db, mem, r.now, seen);
      if fault != NoRaise then Fail(w, mem, fault)
      else if mem.pending.None? then w.(process := Looked(mem, r, writer, OutcomeOf(w.db, mem.state)))
      else if Settled(mem.pending.value, writer) then
        var outcome := SettledOutcome(mem.pending.value, r.now);
        var db := FinishTx(w.db, mem.pending.value, outcome, if seen.tw.Some? then Some(seen.tw.value.id) else None);
        if db.None? then Fail(w, mem, OrdinaryRaise)
        else w.(db := db.value, process := Looked(mem.(pending := None), r, writer, Some(outcome)))
      else if r.now.elapsed - mem.dispatchStarted > 15 * SECOND then Fail(w, mem, ForwardRaise)
      else w.(process := Looked(mem, r, writer, OutcomeOf(w.db, mem.state)))
  }

  /** The owner consults the reducer only on live, recent facts while it is tracking. */
  predicate Consults(p: Process)
    requires p.Looked?
  {
    p.mem.state.phase == Tracking ==>
      p.reading.facts.status == Live && p.reading.now.utc - p.reading.facts.observedAt <= 60 * SECOND
  }

  function DecideMove(a: Approval, w: World, p: Process): World
    requires p.Looked? && p.reading.seen.Some?
  {
    if !Consults(p) then w.(process := Ready(p.mem))
    else
      var i := InputsOf(a, p);
      Take(w, p.mem, i, Advance(p.mem.state, i, DEFAULT_POLICY))
  }

  /** Commits a decision that must be, or that is due to be saved; drops any other one. */
  function Take(w: World, mem: Memory, i: Inputs, d: Decision): World {
    var save := i.now.elapsed - mem.lastSave >= 60 * SECOND;
    if MustCommit(mem.state, d) || save then
      var db := CommitTx(w.db, mem.state, d.state, d.command);
      if db.None? then Fail(w, mem, OrdinaryRaise)
      else Adopted(w.(db := db.value), mem.(state := d.state, lastSave := i.now.elapsed), Tick(i, save), d)
    else
      w.(process := if Absorbed(d.state) then Faulting(mem, false) else Ready(mem))
  }

  function Grow(h: History, t: Tick, d: Decision): History {
    History(h.ticks + [t], Apply(h.run, t, d), h.issued + (if d.command.Some? then [d.command.value] else []))
  }

  function Adopted(w: World, mem: Memory, t: Tick, d: Decision): World {
    w.(history := Grow(w.history, t, d),
       process :=
         if d.command.Some? then Committed(mem, d.command.value, t.inputs.now.elapsed)
         else if Absorbed(d.state) then Faulting(mem, false)
         else Ready(mem))
  }

  function Patched(a: Approval, forward: seq<Destination>, command: Command, applied: bool): seq<Destination> {
    if |a.forward| < 2 || !applied then forward
    else
      var update := ForwardUpdate(a.forward, a.forward[1], command.action);
      if update.Some? then update.value else forward
  }

  /** Observes the relay once more, then patches it; only an applied PATCH of an existing update succeeds. */
  function ChangeMove(a: Approval, w: World, before: Memory, command: Command, at: int,
                      seen: Option<Seen>, applied: bool, raise: Raise): World
  {
    var tried := w.(changes := w.changes + [command]);
    if seen.None? then Fail(tried, before, OrdinaryRaise)
    else
      var mem := ObserveRelay(before, at, seen.value.tw);
      var next := tried.(forward := Patched(a, w.forward, command, applied));
      if |a.forward| < 2 then Fail(next, mem, OrdinaryRaise)
      else if ForwardUpdate(a.forward, a.forward[1], command.action).None? then Fail(next, mem, ForwardRaise)
      else if raise != NoRaise || !applied then Fail(next, mem, raise)
      else next.(process := Ready(mem.(pending := Some(command), dispatchStarted := at)))
  }

  function RescueMove(a: Approval, w: World, mem: Memory, rescue: bool, handlerId: Option<string>): World {
    if !rescue || !w.db.writer.legacyQuiesced || handlerId.None? then w.(process := Exited)
    else
      var binding := Binding(a.broadcasterId, a.routeGeneration, a.authorityEpoch, a.relayInstance,
          mem.bootId, w.db.writer.generation);
      var command := Command(StopTwitch, FaultStop(a.relayInstance, handlerId.value), binding);
      var db := CommitTx(w.db, mem.state, mem.state.(revision := mem.state.revision + 1, phase := Unknown),
          Some(command));
      if db.None? then w.(process := Exited)
      else w.(db := db.value, process := RescueCommitted(command))
  }

  function DispatchMove(w: World, command: Command, dispatched: Process, refused: Process): World {
    var db := DispatchTx(w.db, command);
    if db.None? then w.(process := refused) else w.(db := db.value, process := dispatched)
  }

  /** One move; a move that the process is not ready for changes nothing. */
  function Act(a: Approval, w: World, m: Move): World {
    match m
    case Boot(bootId, granted) => if w.process in {Down, Exited} then BootMove(w, bootId, granted) else w
    case Look(r) => if w.process.Ready? then LookMove(a, w, w.process.mem, r) else w
    case Decide => if w.process.Looked? && w.process.reading.seen.Some? then DecideMove(a, w, w.process) else w
    case Dispatch =>
      if w.process.Committed? then
        DispatchMove(w, w.process.command, Dispatched(w.process.mem, w.process.command, w.process.at),
                     Faulting(w.process.mem, false))
      else w
    case Change(seen, applied, raise) =>
      if w.process.Dispatched? then
        ChangeMove(a, w, w.process.mem, w.process.command, w.process.at, seen, applied, raise)
      else w
    case Rescue(handlerId) =>
      if w.process.Faulting? then RescueMove(a, w, w.process.mem, w.process.rescue, handlerId) else w
    case RescueDispatch =>
      if w.process.RescueCommitted? then
        DispatchMove(w, w.process.command, RescueDispatched(w.process.command), Exited) else w
    case RescueChange(applied) =>
      if w.process.RescueDispatched? then
        w.(changes := w.changes + [w.process.command],
           forward := Patched(a, w.forward, w.process.command, applied), process := Exited)
      else w
    case Interrupt(raise) =>
      if w.process.Ready? || w.process.Looked? then Fail(w, w.process.mem, raise)
      else if w.process.Committed? || w.process.Dispatched? then Fail(w, w.process.mem, raise)
      else if w.process.RescueCommitted? || w.process.RescueDispatched? then w.(process := Exited)
      else w
    case Exit => if w.process.Ready? then w.(process := Exited) else w
    case Crash => w.(process := Down)
  }

  function ActsFrom(a: Approval, w: World, moves: seq<Move>): World {
    if moves == [] then w
    else Act(a, ActsFrom(a, w, moves[..|moves| - 1]), moves[|moves| - 1])
  }

  /** Everything that has happened since the journal was created, over any number of processes. */
  function Acts(a: Approval, moves: seq<Move>): World {
    ActsFrom(a, InitialWorld(a), moves)
  }
}
