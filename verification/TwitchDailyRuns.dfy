/** What the renewal owner guarantees over every sequence of moves, restarts and crashes. */
module TwitchDailyRuns {
  import opened Options
  import opened TwitchSession
  import opened TwitchRuns
  import opened TwitchDaily

  // ----- Invariant

  predicate HistoryOk(h: History) {
    && h.run == Replay(h.ticks, DEFAULT_POLICY)
    && Sound(h)
  }

  /** The history's own invariants, without the replay that establishes them. */
  predicate Sound(h: History) {
    && Invariant(h.run, DEFAULT_POLICY)
    && h.issued == Commands(h.run.log)
    && Alternating(h.issued) && DistinctRequests(h.issued)
  }

  predicate RowOk(id: RequestId, row: Row) {
    && row.command.requestId == id
    && match row.phase
       case Pending => row.attempts == 0 && row.outcome.None?
       case Dispatching => row.attempts == 1 && row.outcome.None?
       case Observed => row.attempts == 1 && row.outcome.Some?
  }

  predicate IsIssued(issued: seq<Command>, id: RequestId) {
    exists k :: 0 <= k < |issued| && issued[k].requestId == id
  }

  predicate Tables(db: Db, issued: seq<Command>) {
    && (forall id :: id in db.outbox ==> RowOk(id, db.outbox[id]) && (id.FaultStop? || IsIssued(issued, id)))
    && (forall k :: 0 <= k < |issued| ==>
          issued[k].requestId in db.outbox && db.outbox[issued[k].requestId].command == issued[k])
  }

  predicate NoRescue(db: Db) {
    forall id :: id in db.outbox ==> !id.FaultStop?
  }

  /** At most one failure stop exists, and it is never observed. */
  predicate RescueOnce(db: Db) {
    && (forall id :: id in db.outbox && id.FaultStop? ==>
          db.outbox[id].phase != Observed && db.outbox[id].command.action == StopTwitch)
    && (forall a, b :: a in db.outbox && b in db.outbox && a.FaultStop? && b.FaultStop? ==> a == b)
  }

  predicate PhaseIs(db: Db, command: Command, phase: RowPhase) {
    command.requestId in db.outbox && db.outbox[command.requestId].phase == phase
  }

  function Last(issued: seq<Command>): Command
    requires issued != []
  {
    issued[|issued| - 1]
  }

  function Front(issued: seq<Command>): seq<Command> {
    if issued == [] then [] else issued[..|issued| - 1]
  }

  predicate LastObserved(db: Db, issued: seq<Command>) {
    issued != [] ==> PhaseIs(db, Last(issued), Observed)
  }

  /** Every command before the last was observed before the next one was issued. */
  predicate FrontObserved(db: Db, issued: seq<Command>) {
    forall k :: 0 <= k < |issued| - 1 ==> PhaseIs(db, issued[k], Observed)
  }

  /** The reducer's commands that reached the relay, leaving out a final failure stop. */
  function Planned(changes: seq<Command>): seq<Command> {
    if changes != [] && changes[|changes| - 1].requestId.FaultStop? then changes[..|changes| - 1] else changes
  }

  predicate ChangesOk(db: Db, issued: seq<Command>, changes: seq<Command>) {
    && Planned(changes) in {issued, Front(issued)}
    && (issued != [] && PhaseIs(db, Last(issued), Pending) ==> Planned(changes) == Front(issued))
    && (issued != [] && PhaseIs(db, Last(issued), Observed) ==> Planned(changes) == issued)
    && (Planned(changes) != changes ==>
          var stop := changes[|changes| - 1];
          PhaseIs(db, stop, Dispatching) && db.outbox[stop.requestId].command == stop)
  }

  predicate StateMatches(db: Db, run: Run) {
    if NoRescue(db) then db.state == run.state else Absorbed(db.state)
  }

  predicate Resolved(db: Db, h: History) {
    h.run.state.phase in {Tracking, WaitOffline, Verifying} ==> LastObserved(db, h.issued)
  }

  function ObservedStarts(outbox: map<RequestId, Row>): set<RequestId> {
    set id | id in outbox && outbox[id].phase == Observed && outbox[id].command.action == StartTwitch
  }

  predicate GenerationOk(db: Db, issued: seq<Command>) {
    && db.writer.generation == 1 + |ObservedStarts(db.outbox)|
    && (issued != [] && !(Last(issued).action == StartTwitch && PhaseIs(db, Last(issued), Observed)) ==>
          Last(issued).binding.writerGeneration == db.writer.generation)
  }

  /** The part of the invariant that a crash leaves behind. */
  predicate Durable(db: Db, changes: seq<Command>, h: History) {
    && Sound(h)
    && Tables(db, h.issued)
    && RescueOnce(db)
    && FrontObserved(db, h.issued)
    && ChangesOk(db, h.issued, changes)
    && StateMatches(db, h.run)
    && Resolved(db, h)
    && GenerationOk(db, h.issued)
  }

  /** Nothing is in flight, or the last command is dispatched and waits for its physical effect. */
  predicate MemoryOk(db: Db, changes: seq<Command>, h: History, mem: Memory) {
    && NoRescue(db)
    && mem.state == db.state
    && if mem.pending.None? then LastObserved(db, h.issued)
       else
         && h.issued != [] && mem.pending.value == Last(h.issued)
         && PhaseIs(db, mem.pending.value, Dispatching)
         && changes == h.issued
  }

  predicate InFlight(db: Db, h: History, mem: Memory, command: Command, phase: RowPhase) {
    && NoRescue(db) && mem.state == db.state
    && h.issued != [] && command == Last(h.issued) && PhaseIs(db, command, phase)
  }

  predicate RescueInFlight(db: Db, changes: seq<Command>, command: Command, phase: RowPhase) {
    && command.requestId.FaultStop? && command.action == StopTwitch
    && PhaseIs(db, command, phase) && db.outbox[command.requestId].command == command
    && Planned(changes) == changes
  }

  predicate ProcessOk(w: World) {
    match w.process
    case Ready(mem) => MemoryOk(w.db, w.changes, w.history, mem)
    case Looked(mem, r, writer, outcome) =>
      && MemoryOk(w.db, w.changes, w.history, mem)
      && (mem.state.phase == Tracking ==> writer.generation == w.db.writer.generation)
      && (mem.state.phase in {WaitStop, WaitStart} && outcome.Some? ==> LastObserved(w.db, w.history.issued))
    case Committed(mem, command, _) => InFlight(w.db, w.history, mem, command, Pending)
    case Dispatched(mem, command, _) =>
      InFlight(w.db, w.history, mem, command, Dispatching) && w.changes == Front(w.history.issued)
    case Faulting(mem, _) => NoRescue(w.db) && mem.state == w.db.state
    case RescueCommitted(command) => RescueInFlight(w.db, w.changes, command, Pending)
    case RescueDispatched(command) => RescueInFlight(w.db, w.changes, command, Dispatching)
    case _ => true
  }

  predicate ForwardOk(a: Approval, forward: seq<Destination>) {
    forward == a.forward || (a.forward != [] && forward == a.forward[..1] && a.forward[0].provider == YouTube)
  }

  predicate Safe(a: Approval, w: World) {
    Durable(w.db, w.changes, w.history) && ProcessOk(w) && ForwardOk(a, w.forward)
  }

  // ----- Every move keeps it

  lemma InitiallySafe(a: Approval)
    ensures Safe(a, InitialWorld(a)) && HistoryOk(InitialWorld(a).history)
  {
    var w := InitialWorld(a);
    assert ObservedStarts(w.db.outbox) == {};
    assert Replay([], DEFAULT_POLICY) == Run(INITIAL_STATE, []);
    ReplayKeepsInvariant([], DEFAULT_POLICY);
    CommandGrammar([], DEFAULT_POLICY);
  }

  lemma BootKeepsSafe(a: Approval, w: World, bootId: string, granted: bool)
    requires Safe(a, w)
    ensures Safe(a, BootMove(w, bootId, granted))
  {
    hide Sound;
    if Unresolved(w.db) == {} {
      forall id | id in w.db.outbox
        ensures w.db.outbox[id].phase == Observed
      {
        assert id !in Unresolved(w.db);
      }
    }
  }

  /** Rewriting the row of one known request, without touching its command, keeps the tables. */
  lemma RowUpdateKeepsTables(db: Db, issued: seq<Command>, id: RequestId, row: Row)
    requires Tables(db, issued) && id in db.outbox
    requires RowOk(id, row) && row.command == db.outbox[id].command
    ensures Tables(db.(outbox := db.outbox[id := row]), issued)
  {
    var next := db.(outbox := db.outbox[id := row]);
    forall k | 0 <= k < |issued|
      ensures issued[k].requestId in next.outbox && next.outbox[issued[k].requestId].command == issued[k]
    {
      assert issued[k].requestId in db.outbox;
    }
  }

  /** The rows of the other issued commands are not the last command's row. */
  lemma FrontRowsStay(db: Db, issued: seq<Command>, row: Row)
    requires issued != [] && DistinctRequests(issued) && FrontObserved(db, issued)
    ensures FrontObserved(db.(outbox := db.outbox[Last(issued).requestId := row]), issued)
  {
    forall k | 0 <= k < |issued| - 1
      ensures PhaseIs(db.(outbox := db.outbox[Last(issued).requestId := row]), issued[k], Observed)
    {
      assert PhaseIs(db, issued[k], Observed);
    }
  }

  lemma LookOutcome(db: Db, changes: seq<Command>, h: History)
    requires Durable(db, changes, h) && NoRescue(db)
    requires db.state.phase in {WaitStop, WaitStart} && OutcomeOf(db, db.state).Some?
    ensures LastObserved(db, h.issued)
  {
    LastCommand(h.run, DEFAULT_POLICY);
  }

  lemma OneMoreObserved(outbox: map<RequestId, Row>, id: RequestId, row: Row)
    requires id in outbox && outbox[id].phase != Observed && row.phase == Observed
    ensures var starts := ObservedStarts(outbox[id := row]);
      if row.command.action == StartTwitch
      then starts == ObservedStarts(outbox) + {id} && |starts| == |ObservedStarts(outbox)| + 1
      else starts == ObservedStarts(outbox)
  {
    var starts := ObservedStarts(outbox[id := row]);
    if row.command.action == StartTwitch {
      assert starts == ObservedStarts(outbox) + {id};
    } else {
      assert starts == ObservedStarts(outbox);
    }
  }

  lemma FinishedChanges(db: Db, issued: seq<Command>, changes: seq<Command>, row: Row)
    requires issued != [] && changes == issued && !Last(issued).requestId.FaultStop? && row.phase == Observed
    ensures ChangesOk(db.(outbox := db.outbox[Last(issued).requestId := row]), issued, changes)
  {
  }

  lemma FinishedGeneration(db: Db, issued: seq<Command>, outcome: Outcome, handlerId: Option<string>)
    requires issued != [] && GenerationOk(db, issued) && PhaseIs(db, Last(issued), Dispatching)
    requires db.outbox[Last(issued).requestId].command == Last(issued)
    requires FinishTx(db, Last(issued), outcome, handlerId).Some?
    ensures GenerationOk(FinishTx(db, Last(issued), outcome, handlerId).value, issued)
  {
    var id := Last(issued).requestId;
    OneMoreObserved(db.outbox, id, db.outbox[id].(phase := Observed, outcome := Some(outcome)));
  }

  /** Finishing observes the last command; a finished START also counts one more generation. */
  lemma FinishKeepsDurable(db: Db, changes: seq<Command>, h: History,
      mem: Memory, outcome: Outcome, handlerId: Option<string>)
    requires Durable(db, changes, h) && MemoryOk(db, changes, h, mem) && mem.pending.Some?
    requires FinishTx(db, mem.pending.value, outcome, handlerId).Some?
    ensures var next := FinishTx(db, mem.pending.value, outcome, handlerId).value;
      && Durable(next, changes, h) && MemoryOk(next, changes, h, mem.(pending := None))
      && mem.state.phase != Tracking
  {
    hide Invariant, Commands, Alternating, Tables, FrontObserved, ChangesOk, GenerationOk;
    var command := mem.pending.value;
    var id := command.requestId;
    var next := FinishTx(db, command, outcome, handlerId).value;
    var row := db.outbox[id].(phase := Observed, outcome := Some(outcome));
    assert next.outbox == db.outbox[id := row];
    LastRow(db, h.issued);
    RowUpdateKeepsTables(db, h.issued, id, row);
    TablesNeedOnlyOutbox(db.(outbox := next.outbox), next, h.issued);
    FrontRowsStay(db, h.issued, row);
    FinishedChanges(db, h.issued, changes, row);
    FinishedGeneration(db, h.issued, outcome, handlerId);
  }

  lemma LastRow(db: Db, issued: seq<Command>)
    requires Tables(db, issued) && issued != []
    ensures Last(issued).requestId in db.outbox
    ensures db.outbox[Last(issued).requestId].command == Last(issued)
    ensures RowOk(Last(issued).requestId, db.outbox[Last(issued).requestId])
  {
  }

  lemma KnownRow(db: Db, issued: seq<Command>, id: RequestId)
    requires Tables(db, issued) && id in db.outbox
    ensures RowOk(id, db.outbox[id])
  {
  }

  lemma TablesNeedOnlyOutbox(a: Db, b: Db, issued: seq<Command>)
    requires a.outbox == b.outbox
    ensures Tables(a, issued) == Tables(b, issued)
    ensures FrontObserved(a, issued) == FrontObserved(b, issued)
    ensures forall changes :: ChangesOk(a, issued, changes) == ChangesOk(b, issued, changes)
  {
  }

  lemma LookKeepsSafe(a: Approval, w: World, r: Reading)
    requires Safe(a, w) && w.process.Ready?
    ensures Safe(a, LookMove(a, w, w.process.mem, r))
  {
    hide Durable, ReadingFault;
    if r.seen.Some? {
      var mem := ObserveRelay(ObserveEarlier(w.process.mem, r.earlier), r.now.elapsed, r.seen.value.tw);
      if ReadingFault(w.db, mem, r.now, r.seen.value) == NoRaise {
        var writer := WriterOf(a, w.db, mem, r.now, r.seen.value);
        if mem.state.phase in {WaitStop, WaitStart} && OutcomeOf(w.db, mem.state).Some? {
          LookOutcome(w.db, w.changes, w.history);
        }
        if mem.pending.Some? && Settled(mem.pending.value, writer) {
          var handlerId := if r.seen.value.tw.Some? then Some(r.seen.value.tw.value.id) else None;
          var outcome := SettledOutcome(mem.pending.value, r.now);
          if FinishTx(w.db, mem.pending.value, outcome, handlerId).Some? {
            FinishKeepsDurable(w.db, w.changes, w.history, mem, outcome, handlerId);
          }
        }
      }
    }
  }

  // The decision is the one move that issues commands.

  lemma HistoryGrows(h: History, t: Tick)
    requires HistoryOk(h)
    ensures HistoryOk(Grow(h, t, Advance(h.run.state, t.inputs, DEFAULT_POLICY)))
  {
    var d := Advance(h.run.state, t.inputs, DEFAULT_POLICY);
    ReplayExtends(h.ticks, t, DEFAULT_POLICY);
    GrownHistoryIsSound(h.ticks + [t]);
    CommandIsLogged(h.run, t.inputs, DEFAULT_POLICY);
  }

  lemma GrownHistoryIsSound(ticks: seq<Tick>)
    ensures var run := Replay(ticks, DEFAULT_POLICY);
      Sound(History(ticks, run, Commands(run.log)))
  {
    ReplayKeepsInvariant(ticks, DEFAULT_POLICY);
    CommandGrammar(ticks, DEFAULT_POLICY);
  }

  /** Issuing: the new row is pending, and everything before it has been observed. */
  lemma IssueKeepsDurable(db: Db, changes: seq<Command>, h: History, next: History, state: RenewalState, c: Command)
    requires Durable(db, changes, h) && LastObserved(db, h.issued) && NoRescue(db)
    requires Sound(next) && next.issued == h.issued + [c] && next.run.state == state
    requires state.phase in {WaitStop, WaitStart}
    requires c.requestId !in db.outbox
    requires c.binding.writerGeneration == db.writer.generation
    ensures Durable(db.(state := state, outbox := db.outbox[c.requestId := Row(c, Pending, 0, None)]), changes, next)
    ensures NoRescue(db.(outbox := db.outbox[c.requestId := Row(c, Pending, 0, None)]))
  {
    hide Invariant, Commands, Tables, FrontObserved, ChangesOk, GenerationOk;
    var after := db.(state := state, outbox := db.outbox[c.requestId := Row(c, Pending, 0, None)]);
    assert !c.requestId.FaultStop? by {
      assert InTurn(next.issued, |h.issued|);
    }
    IssueKeepsTables(db, h.issued, c);
    IssuedFront(db, h.issued, c);
    IssuedChanges(db, h.issued, changes, c);
    IssuedGeneration(db, h.issued, c);
    TablesNeedOnlyOutbox(db.(outbox := after.outbox), after, next.issued);
    assert GenerationOk(after, next.issued) by {
      GenerationNeedsNoState(db.(outbox := after.outbox), state, next.issued);
    }
  }

  lemma GenerationNeedsNoState(db: Db, state: RenewalState, issued: seq<Command>)
    ensures GenerationOk(db.(state := state), issued) == GenerationOk(db, issued)
  {
  }

  lemma IssuedFront(db: Db, issued: seq<Command>, c: Command)
    requires FrontObserved(db, issued) && LastObserved(db, issued) && c.requestId !in db.outbox
    ensures FrontObserved(db.(outbox := db.outbox[c.requestId := Row(c, Pending, 0, None)]), issued + [c])
  {
    forall k | 0 <= k < |issued|
      ensures PhaseIs(db.(outbox := db.outbox[c.requestId := Row(c, Pending, 0, None)]), (issued + [c])[k], Observed)
    {
      assert PhaseIs(db, issued[k], Observed);
    }
  }

  lemma IssuedChanges(db: Db, issued: seq<Command>, changes: seq<Command>, c: Command)
    requires ChangesOk(db, issued, changes) && LastObserved(db, issued) && NoRescue(db)
    requires c.requestId !in db.outbox
    ensures ChangesOk(db.(outbox := db.outbox[c.requestId := Row(c, Pending, 0, None)]), issued + [c], changes)
  {
    assert Front(issued + [c]) == issued;
    assert Planned(changes) == changes == issued;
  }

  lemma IssuedGeneration(db: Db, issued: seq<Command>, c: Command)
    requires GenerationOk(db, issued) && c.requestId !in db.outbox
    requires c.binding.writerGeneration == db.writer.generation
    ensures GenerationOk(db.(outbox := db.outbox[c.requestId := Row(c, Pending, 0, None)]), issued + [c])
  {
    assert ObservedStarts(db.outbox[c.requestId := Row(c, Pending, 0, None)]) == ObservedStarts(db.outbox);
  }

  lemma IssueKeepsTables(db: Db, issued: seq<Command>, c: Command)
    requires Tables(db, issued) && c.requestId !in db.outbox
    ensures Tables(db.(outbox := db.outbox[c.requestId := Row(c, Pending, 0, None)]), issued + [c])
  {
    var next := db.(outbox := db.outbox[c.requestId := Row(c, Pending, 0, None)]);
    forall id | id in next.outbox && !id.FaultStop?
      ensures IsIssued(issued + [c], id)
    {
      if id == c.requestId {
        assert (issued + [c])[|issued|].requestId == id;
      } else {
        var k :| 0 <= k < |issued| && issued[k].requestId == id;
        assert (issued + [c])[k].requestId == id;
      }
    }
    forall k | 0 <= k < |issued + [c]|
      ensures (issued + [c])[k].requestId in next.outbox
        && next.outbox[(issued + [c])[k].requestId].command == (issued + [c])[k]
    {
      if k < |issued| {
        assert issued[k].requestId in db.outbox;
      }
    }
  }

  /** What the decision promises about the phase, the command and its writer generation. */
  lemma DecisionFacts(db: Db, changes: seq<Command>, h: History, i: Inputs)
    requires Durable(db, changes, h) && NoRescue(db)
    requires h.run.state.phase == Tracking ==> i.writer.generation == db.writer.generation
    requires h.run.state.phase in {WaitStop, WaitStart} && i.outcome.Some? ==> LastObserved(db, h.issued)
    ensures var d := Advance(h.run.state, i, DEFAULT_POLICY);
      && (d.command.Some? ==>
            && LastObserved(db, h.issued)
            && d.state.phase in {WaitStop, WaitStart}
            && d.command.value.binding.writerGeneration == db.writer.generation)
      && (d.command.None? && d.state.phase in {Tracking, WaitOffline, Verifying} ==> LastObserved(db, h.issued))
  {
    hide Advance, Link, Commands;
    PhaseMoves(h.run, i, DEFAULT_POLICY);
    LastCommand(h.run, DEFAULT_POLICY);
    StartBinding(h.run, i);
  }

  lemma StartBinding(run: Run, i: Inputs)
    requires Invariant(run, DEFAULT_POLICY)
    ensures var d := Advance(run.state, i, DEFAULT_POLICY);
      d.command.Some? && d.command.value.action == StartTwitch ==>
        run.state.binding == Some(d.command.value.binding)
  {
    hide Link, IsId, Fresh, Preflight;
    if Preflight(run.state, i, DEFAULT_POLICY).Some? {
      ExitCommands(run.state, i, DEFAULT_POLICY);
    }
  }

  lemma DecideKeepsSafe(a: Approval, w: World)
    requires Safe(a, w) && HistoryOk(w.history)
    requires w.process.Looked? && w.process.reading.seen.Some?
    ensures Safe(a, DecideMove(a, w, w.process))
    ensures HistoryOk(DecideMove(a, w, w.process).history)
  {
    hide Advance, Durable, HistoryOk, Absorbed;
    var p := w.process;
    if Consults(p) {
      var i := InputsOf(a, p);
      SameState(w);
      var d := Advance(p.mem.state, i, DEFAULT_POLICY);
      var save := i.now.elapsed - p.mem.lastSave >= 60 * SECOND;
      if MustCommit(p.mem.state, d) || save {
        var db := CommitTx(w.db, p.mem.state, d.state, d.command);
        if db.Some? {
          CommitKeepsSafe(a, w, i, save);
        }
      }
    }
  }

  lemma SameState(w: World)
    requires Durable(w.db, w.changes, w.history) && NoRescue(w.db)
    ensures w.db.state == w.history.run.state
  {
  }

  lemma CommitKeepsSafe(a: Approval, w: World, i: Inputs, save: bool)
    requires Safe(a, w) && HistoryOk(w.history)
    requires w.process.Looked? && w.process.reading.seen.Some? && i == InputsOf(a, w.process)
    requires var d := Advance(w.process.mem.state, i, DEFAULT_POLICY);
      && (MustCommit(w.process.mem.state, d) || save)
      && CommitTx(w.db, w.process.mem.state, d.state, d.command).Some?
    ensures var d := Advance(w.process.mem.state, i, DEFAULT_POLICY);
      var db := CommitTx(w.db, w.process.mem.state, d.state, d.command).value;
      var mem := w.process.mem.(state := d.state, lastSave := i.now.elapsed);
      var next := Adopted(w.(db := db), mem, Tick(i, save), d);
      Safe(a, next) && HistoryOk(next.history)
  {
    hide Advance, Durable, HistoryOk, NoRescue, Absorbed, MustCommit, LastObserved;
    var mem, h := w.process.mem, w.history;
    var d := Advance(mem.state, i, DEFAULT_POLICY);
    SameState(w);
    DecisionFacts(w.db, w.changes, h, i);
    HistoryGrows(h, Tick(i, save));
    GrownState(h, Tick(i, save), d);
    var next := Grow(h, Tick(i, save), d);
    SoundHistory(next);
    if d.command.Some? {
      IssueKeepsDurable(w.db, w.changes, h, next, d.state, d.command.value);
      IssueInFlight(w.db, h, d.command.value, d.state, mem.(state := d.state, lastSave := i.now.elapsed), next);
    } else {
      SaveKeepsDurable(w.db, w.changes, h, next, d.state);
      SavedMemory(w.db, w.changes, h, next, mem, d.state, i.now.elapsed);
    }
  }

  lemma SoundHistory(h: History)
    requires HistoryOk(h)
    ensures Sound(h)
  {
  }

  lemma IssueInFlight(db: Db, h: History, c: Command, state: RenewalState, mem: Memory, next: History)
    requires NoRescue(db.(outbox := db.outbox[c.requestId := Row(c, Pending, 0, None)]))
    requires next.issued == h.issued + [c] && mem.state == state
    ensures InFlight(db.(state := state, outbox := db.outbox[c.requestId := Row(c, Pending, 0, None)]),
        next, mem, c, Pending)
  {
  }

  lemma SaveKeepsDurable(db: Db, changes: seq<Command>, h: History, next: History, state: RenewalState)
    requires Durable(db, changes, h) && NoRescue(db)
    requires Sound(next) && next.issued == h.issued && next.run.state == state
    requires state.phase in {Tracking, WaitOffline, Verifying} ==> LastObserved(db, h.issued)
    ensures Durable(db.(state := state), changes, next)
  {
    hide Sound;
  }

  lemma SavedMemory(db: Db, changes: seq<Command>, h: History, next: History, mem: Memory, state: RenewalState, at: int)
    requires MemoryOk(db, changes, h, mem) && next.issued == h.issued
    ensures MemoryOk(db.(state := state), changes, next, mem.(state := state, lastSave := at))
    ensures NoRescue(db.(state := state))
  {
  }

  lemma GrownState(h: History, t: Tick, d: Decision)
    requires MustCommit(h.run.state, d) || t.save
    ensures Grow(h, t, d).run.state == d.state
  {
  }

  // The effect moves.

  lemma PlannedIsAll(db: Db, issued: seq<Command>, changes: seq<Command>)
    requires ChangesOk(db, issued, changes) && NoRescue(db)
    ensures Planned(changes) == changes
  {
  }

  lemma DispatchedChanges(db: Db, issued: seq<Command>, changes: seq<Command>, row: Row)
    requires issued != [] && ChangesOk(db, issued, changes) && NoRescue(db) && PhaseIs(db, Last(issued), Pending)
    requires row.phase == Dispatching
    ensures ChangesOk(db.(outbox := db.outbox[Last(issued).requestId := row]), issued, changes)
    ensures changes == Front(issued)
  {
    PlannedIsAll(db, issued, changes);
  }

  lemma DispatchedGeneration(db: Db, issued: seq<Command>, id: RequestId, row: Row)
    requires GenerationOk(db, issued) && id in db.outbox && db.outbox[id].phase == Pending && row.phase == Dispatching
    ensures GenerationOk(db.(outbox := db.outbox[id := row]), issued)
  {
    assert ObservedStarts(db.outbox[id := row]) == ObservedStarts(db.outbox);
  }

  lemma DispatchKeepsSafe(a: Approval, w: World, mem: Memory, command: Command, at: int)
    requires Safe(a, w) && w.process == Committed(mem, command, at)
    ensures Safe(a, DispatchMove(w, command, Dispatched(mem, command, at), Faulting(mem, false)))
  {
    hide Sound, Tables, FrontObserved, ChangesOk, GenerationOk;
    var db, issued := w.db, w.history.issued;
    if DispatchTx(db, command).Some? {
      var row := db.outbox[command.requestId].(phase := Dispatching, attempts := 1);
      LastRow(db, issued);
      RowUpdateKeepsTables(db, issued, command.requestId, row);
      assert DistinctRequests(issued) by {
        IssuedIsDistinct(w.history);
      }
      FrontRowsStay(db, issued, row);
      DispatchedChanges(db, issued, w.changes, row);
      DispatchedGeneration(db, issued, command.requestId, row);
    }
  }

  lemma IssuedIsDistinct(h: History)
    requires Sound(h)
    ensures DistinctRequests(h.issued) && Alternating(h.issued)
  {
  }

  lemma ChangeKeepsSafe(a: Approval, w: World, mem: Memory, command: Command, at: int,
                          seen: Option<Seen>, applied: bool, raise: Raise)
    requires Safe(a, w) && w.process == Dispatched(mem, command, at)
    ensures Safe(a, ChangeMove(a, w, mem, command, at, seen, applied, raise))
  {
    hide Sound, Tables, FrontObserved, GenerationOk;
    var issued := w.history.issued;
    assert issued == Front(issued) + [Last(issued)];
    assert !command.requestId.FaultStop? by {
      LastRow(w.db, issued);
    }
    assert Planned(w.changes + [command]) == issued;
    PatchKeepsForward(a, w.forward, command, applied);
  }

  lemma PatchKeepsForward(a: Approval, forward: seq<Destination>, command: Command, applied: bool)
    requires ForwardOk(a, forward)
    ensures ForwardOk(a, Patched(a, forward, command, applied))
  {
    if |a.forward| == 2 {
      assert a.forward == [a.forward[0]] + [a.forward[1]];
    }
  }

  lemma RescueKeepsTables(db: Db, issued: seq<Command>, c: Command)
    requires Tables(db, issued) && c.requestId.FaultStop? && c.requestId !in db.outbox
    ensures Tables(db.(outbox := db.outbox[c.requestId := Row(c, Pending, 0, None)]), issued)
  {
    var next := db.(outbox := db.outbox[c.requestId := Row(c, Pending, 0, None)]);
    forall k | 0 <= k < |issued|
      ensures issued[k].requestId in next.outbox && next.outbox[issued[k].requestId].command == issued[k]
    {
      assert issued[k].requestId in db.outbox;
    }
  }

  lemma RescueCommitKeepsDurable(db: Db, changes: seq<Command>, h: History, state: RenewalState, c: Command)
    requires Durable(db, changes, h) && NoRescue(db)
    requires c.requestId.FaultStop? && c.requestId !in db.outbox && state.phase == Unknown && c.action == StopTwitch
    ensures Durable(db.(state := state, outbox := db.outbox[c.requestId := Row(c, Pending, 0, None)]), changes, h)
    ensures Planned(changes) == changes
  {
    hide Invariant, Commands, Alternating, DistinctRequests;
    PlannedIsAll(db, h.issued, changes);
    RescueKeepsTables(db, h.issued, c);
    RescueKeepsRest(db, changes, h, state, c);
    assert Tables(db, h.issued);
  }

  lemma RescueKeepsRest(db: Db, changes: seq<Command>, h: History, state: RenewalState, c: Command)
    requires Tables(db, h.issued) && FrontObserved(db, h.issued) && ChangesOk(db, h.issued, changes)
    requires GenerationOk(db, h.issued) && NoRescue(db)
    requires c.requestId.FaultStop? && c.requestId !in db.outbox
    ensures var next := db.(state := state, outbox := db.outbox[c.requestId := Row(c, Pending, 0, None)]);
      && FrontObserved(next, h.issued) && ChangesOk(next, h.issued, changes) && GenerationOk(next, h.issued)
      && (LastObserved(db, h.issued) ==> LastObserved(next, h.issued))
  {
    hide RowOk;
    assert ObservedStarts(db.outbox[c.requestId := Row(c, Pending, 0, None)]) == ObservedStarts(db.outbox);
    forall k | 0 <= k < |h.issued|
      ensures h.issued[k].requestId in db.outbox && h.issued[k].requestId != c.requestId
    {
    }
  }

  lemma RescueKeepsSafe(a: Approval, w: World, mem: Memory, rescue: bool, handlerId: Option<string>)
    requires Safe(a, w) && w.process == Faulting(mem, rescue)
    ensures Safe(a, RescueMove(a, w, mem, rescue, handlerId))
  {
    hide Durable;
    if rescue && w.db.writer.legacyQuiesced && handlerId.Some? {
      var binding := Binding(a.broadcasterId, a.routeGeneration, a.authorityEpoch, a.relayInstance,
          mem.bootId, w.db.writer.generation);
      var command := Command(StopTwitch, FaultStop(a.relayInstance, handlerId.value), binding);
      RescueCommitKeepsDurable(w.db, w.changes, w.history,
          mem.state.(revision := mem.state.revision + 1, phase := Unknown), command);
    }
  }

  lemma RescueDispatchKeepsSafe(a: Approval, w: World, command: Command)
    requires Safe(a, w) && w.process == RescueCommitted(command)
    ensures Safe(a, DispatchMove(w, command, RescueDispatched(command), Exited))
  {
    hide Sound, Tables, FrontObserved, ChangesOk, GenerationOk;
    var db, issued := w.db, w.history.issued;
    if DispatchTx(db, command).Some? {
      var row := db.outbox[command.requestId].(phase := Dispatching, attempts := 1);
      KnownRow(db, issued, command.requestId);
      RowUpdateKeepsTables(db, issued, command.requestId, row);
      IssuedIsDistinct(w.history);
      RescueRowKeepsRest(db, w.changes, issued, command.requestId, row);
      DispatchedGeneration(db, issued, command.requestId, row);
    }
  }

  lemma RescueRowKeepsRest(db: Db, changes: seq<Command>, issued: seq<Command>, id: RequestId, row: Row)
    requires Tables(db, issued) && FrontObserved(db, issued) && ChangesOk(db, issued, changes)
    requires id.FaultStop? && id in db.outbox && Planned(changes) == changes && Alternating(issued)
    ensures var next := db.(outbox := db.outbox[id := row]);
      && FrontObserved(next, issued) && ChangesOk(next, issued, changes)
      && (LastObserved(db, issued) ==> LastObserved(next, issued))
  {
    hide RowOk, Alternating;
    IssuedAreNotRescues(issued);
  }

  lemma IssuedAreNotRescues(issued: seq<Command>)
    requires Alternating(issued)
    ensures forall k :: 0 <= k < |issued| ==> !issued[k].requestId.FaultStop?
  {
    forall k | 0 <= k < |issued|
      ensures !issued[k].requestId.FaultStop?
    {
      assert InTurn(issued, k);
    }
  }

  lemma RescueChangeKeepsSafe(a: Approval, w: World, command: Command, applied: bool)
    requires Safe(a, w) && w.process == RescueDispatched(command)
    ensures Safe(a, Act(a, w, RescueChange(applied)))
  {
    hide Sound, Tables, FrontObserved, GenerationOk, StateMatches, Resolved, RescueOnce, RescueMove,
        LookMove, DecideMove, ChangeMove;
    assert (w.changes + [command])[..|w.changes|] == w.changes;
    PatchKeepsForward(a, w.forward, command, applied);
  }

  lemma ActKeepsSafe(a: Approval, w: World, m: Move)
    requires Safe(a, w) && HistoryOk(w.history)
    ensures Safe(a, Act(a, w, m)) && HistoryOk(Act(a, w, m).history)
  {
    hide Durable, HistoryOk, LookMove, DecideMove, ChangeMove, RescueMove, BootMove, DispatchMove;
    match m
    case Boot(bootId, granted) =>
      BootKeepsSafe(a, w, bootId, granted);
      BootKeepsHistory(w, bootId, granted);
    case Look(r) =>
      if w.process.Ready? {
        LookKeepsSafe(a, w, r);
        LookKeepsHistory(a, w, r);
      }
    case Decide =>
      if w.process.Looked? && w.process.reading.seen.Some? {
        DecideKeepsSafe(a, w);
      }
    case Dispatch =>
      if w.process.Committed? {
        DispatchKeepsSafe(a, w, w.process.mem, w.process.command, w.process.at);
        DispatchKeepsHistory(w, w.process.command, Dispatched(w.process.mem, w.process.command, w.process.at),
                             Faulting(w.process.mem, false));
      }
    case Change(seen, applied, raise) =>
      if w.process.Dispatched? {
        ChangeKeepsSafe(a, w, w.process.mem, w.process.command, w.process.at, seen, applied, raise);
        ChangeKeepsHistory(a, w, w.process.mem, w.process.command, w.process.at, seen, applied, raise);
      }
    case Rescue(handlerId) =>
      if w.process.Faulting? {
        RescueKeepsSafe(a, w, w.process.mem, w.process.rescue, handlerId);
        RescueKeepsHistory(a, w, w.process.mem, w.process.rescue, handlerId);
      }
    case RescueDispatch =>
      if w.process.RescueCommitted? {
        RescueDispatchKeepsSafe(a, w, w.process.command);
        DispatchKeepsHistory(w, w.process.command, RescueDispatched(w.process.command), Exited);
      }
    case RescueChange(applied) =>
      if w.process.RescueDispatched? {
        RescueChangeKeepsSafe(a, w, w.process.command, applied);
      }
    case _ =>
  }

  lemma BootKeepsHistory(w: World, bootId: string, granted: bool)
    ensures BootMove(w, bootId, granted).history == w.history
  {
  }

  lemma LookKeepsHistory(a: Approval, w: World, r: Reading)
    requires w.process.Ready?
    ensures LookMove(a, w, w.process.mem, r).history == w.history
  {
  }

  lemma DispatchKeepsHistory(w: World, c: Command, dispatched: Process, refused: Process)
    ensures DispatchMove(w, c, dispatched, refused).history == w.history
  {
  }

  lemma ChangeKeepsHistory(a: Approval, w: World, mem: Memory, c: Command, at: int,
                             seen: Option<Seen>, applied: bool, raise: Raise)
    ensures ChangeMove(a, w, mem, c, at, seen, applied, raise).history == w.history
  {
  }

  lemma RescueKeepsHistory(a: Approval, w: World, mem: Memory, rescue: bool, handlerId: Option<string>)
    ensures RescueMove(a, w, mem, rescue, handlerId).history == w.history
  {
  }

  lemma {:induction false} ActsSafe(a: Approval, moves: seq<Move>)
    ensures Safe(a, Acts(a, moves)) && HistoryOk(Acts(a, moves).history)
  {
    hide Act, Safe, HistoryOk, InitialWorld;
    if moves == [] {
      InitiallySafe(a);
    } else {
      ActsSafe(a, moves[..|moves| - 1]);
      ActKeepsSafe(a, Acts(a, moves[..|moves| - 1]), moves[|moves| - 1]);
    }
  }

  // ----- Main results

  /** No request reaches the relay twice, and each that does is in the outbox, past PENDING. */
  lemma ChangesAtMostOnce(a: Approval, moves: seq<Move>)
    ensures var w := Acts(a, moves);
      && DistinctRequests(w.changes)
      && forall k :: 0 <= k < |w.changes| ==>
           var id := w.changes[k].requestId;
           id in w.db.outbox && w.db.outbox[id].command == w.changes[k] && w.db.outbox[id].attempts == 1
  {
    hide Act, Acts;
    ActsSafe(a, moves);
    ChangesDistinct(Acts(a, moves).db, Acts(a, moves).changes, Acts(a, moves).history);
  }

  lemma ChangesDistinct(db: Db, changes: seq<Command>, h: History)
    requires Durable(db, changes, h)
    ensures DistinctRequests(changes)
    ensures forall k :: 0 <= k < |changes| ==>
      var id := changes[k].requestId;
      id in db.outbox && db.outbox[id].command == changes[k] && db.outbox[id].attempts == 1
  {
    hide Invariant, Commands, GenerationOk, StateMatches, Resolved;
    IssuedIsDistinct(h);
    IssuedAreNotRescues(h.issued);
    var planned := Planned(changes);
    forall k | 0 <= k < |planned|
      ensures planned[k] == changes[k] == h.issued[k] && h.issued[k].requestId in db.outbox
        && db.outbox[h.issued[k].requestId].phase != Pending
    {
      assert h.issued[k].requestId in db.outbox;
      if k < |h.issued| - 1 {
        assert PhaseIs(db, h.issued[k], Observed);
      }
    }
  }

  /** A command reaches the relay only from a durable DISPATCHING row, on its only attempt, for the first time. */
  lemma ChangeFollowsDispatch(a: Approval, moves: seq<Move>, m: Move)
    requires Act(a, Acts(a, moves), m).changes != Acts(a, moves).changes
    ensures var w, next := Acts(a, moves), Act(a, Acts(a, moves), m);
      && |next.changes| == |w.changes| + 1
      && var c := next.changes[|w.changes|];
      && next.changes == w.changes + [c]
      && next.db == w.db
      && PhaseIs(w.db, c, Dispatching) && w.db.outbox[c.requestId].attempts == 1
      && forall k :: 0 <= k < |w.changes| ==> w.changes[k].requestId != c.requestId
  {
    hide Act, Acts, Safe;
    var w := Acts(a, moves);
    ActsSafe(a, moves);
    ActKeepsSafe(a, w, m);
    ChangeStep(a, w, m);
    var next := Act(a, w, m);
    NextChangesDistinct(a, next);
    forall k | 0 <= k < |w.changes|
      ensures w.changes[k].requestId != next.changes[|w.changes|].requestId
    {
      assert next.changes[k] == w.changes[k];
    }
  }

  lemma NextChangesDistinct(a: Approval, w: World)
    requires Safe(a, w)
    ensures DistinctRequests(w.changes)
  {
    ChangesDistinct(w.db, w.changes, w.history);
  }

  lemma ChangeStep(a: Approval, w: World, m: Move)
    requires Safe(a, w) && Act(a, w, m).changes != w.changes
    ensures var next := Act(a, w, m);
      && next.db == w.db && |next.changes| == |w.changes| + 1
      && var c := next.changes[|w.changes|];
      && next.changes == w.changes + [c]
      && PhaseIs(w.db, c, Dispatching) && w.db.outbox[c.requestId].attempts == 1
  {
    hide Durable, LookMove, DecideMove, RescueMove, BootMove, DispatchMove, Patched;
    match m
    case Change(seen, applied, raise) =>
      DurableRow(w.db, w.changes, w.history, w.process.command);
    case RescueChange(applied) =>
      DurableRow(w.db, w.changes, w.history, w.process.command);
    case Boot(bootId, granted) => BootKeepsChanges(w, bootId, granted);
    case Look(r) => LookKeepsChanges(a, w, r);
    case Decide => DecideKeepsChanges(a, w);
    case Dispatch => DispatchKeepsChanges(w, m);
    case RescueDispatch => DispatchKeepsChanges(w, m);
    case Rescue(handlerId) => RescueKeepsChanges(a, w, handlerId);
    case _ =>
  }

  lemma DurableRow(db: Db, changes: seq<Command>, h: History, c: Command)
    requires Durable(db, changes, h) && PhaseIs(db, c, Dispatching)
    ensures db.outbox[c.requestId].attempts == 1
  {
    KnownRow(db, h.issued, c.requestId);
  }

  lemma BootKeepsChanges(w: World, bootId: string, granted: bool)
    ensures BootMove(w, bootId, granted).changes == w.changes
  {
  }

  lemma LookKeepsChanges(a: Approval, w: World, r: Reading)
    requires w.process.Ready?
    ensures LookMove(a, w, w.process.mem, r).changes == w.changes
  {
  }

  lemma DecideKeepsChanges(a: Approval, w: World)
    ensures Act(a, w, Decide).changes == w.changes
  {
    hide Advance;
  }

  lemma DispatchKeepsChanges(w: World, m: Move)
    ensures forall c, x, y :: DispatchMove(w, c, x, y).changes == w.changes
  {
  }

  lemma RescueKeepsChanges(a: Approval, w: World, handlerId: Option<string>)
    requires w.process.Faulting?
    ensures RescueMove(a, w, w.process.mem, w.process.rescue, handlerId).changes == w.changes
  {
  }

  /** A process that ended with an unresolved row never leads to another change of any kind. */
  lemma {:induction false} HeldForever(a: Approval, w: World, more: seq<Move>)
    requires w.process in {Down, Exited} && Unresolved(w.db) != {}
    ensures var later := ActsFrom(a, w, more);
      && later.db == w.db && later.changes == w.changes && later.forward == w.forward
      && later.process in {Down, Exited}
  {
    if more != [] {
      var n := |more| - 1;
      HeldForever(a, w, more[..n]);
      HeldMove(a, ActsFrom(a, w, more[..n]), more[n]);
    }
  }

  lemma HeldMove(a: Approval, w: World, m: Move)
    requires w.process in {Down, Exited} && Unresolved(w.db) != {}
    ensures var next := Act(a, w, m);
      && next.db == w.db && next.changes == w.changes && next.forward == w.forward
      && next.process in {Down, Exited}
  {
    hide LookMove, DecideMove, ChangeMove, RescueMove, DispatchMove;
  }

  /** The writer generation counts the STARTs whose physical effect was observed. */
  lemma GenerationCountsStarts(a: Approval, moves: seq<Move>)
    ensures var db := Acts(a, moves).db;
      db.writer.generation == 1 + |ObservedStarts(db.outbox)|
  {
    hide Act, Acts, Sound, Tables, FrontObserved, ChangesOk, StateMatches, Resolved, ProcessOk;
    ActsSafe(a, moves);
  }

  /** The changes are the reducer's own command sequence, in order and at most one short,
      then at most one failure stop, which stays unresolved. */
  lemma ChangesFollowReducer(a: Approval, moves: seq<Move>)
    ensures var w := Acts(a, moves);
      var commands := Commands(Replay(w.history.ticks, DEFAULT_POLICY).log);
      && Planned(w.changes) in {commands, Front(commands)}
      && (Planned(w.changes) != w.changes ==>
            && w.changes == Planned(w.changes) + [Last(w.changes)]
            && Last(w.changes).action == StopTwitch && Last(w.changes).requestId in Unresolved(w.db))
  {
    hide Act, Acts, Replay, Commands, Tables, FrontObserved, StateMatches, Resolved, GenerationOk, Invariant;
    ActsSafe(a, moves);
  }

  /** When a START reached the relay, its own STOP had reached it just before and was observed stopped. */
  lemma StartFollowsObservedStop(a: Approval, moves: seq<Move>, k: nat)
    requires var changes := Acts(a, moves).changes; k < |changes| && changes[k].action == StartTwitch
    ensures var w := Acts(a, moves);
      && k > 0
      && var stop, start := w.changes[k - 1], w.changes[k];
      && OperationOf(stop) == OperationOf(start) && stop.binding == start.binding
      && stop == Command(StopTwitch, StopRequest(OperationOf(start)), start.binding)
      && PhaseIs(w.db, stop, Observed)
  {
    hide Act, Acts, Safe;
    ActsSafe(a, moves);
    SafeIsDurable(a, Acts(a, moves));
    StartOfPair(Acts(a, moves).db, Acts(a, moves).changes, Acts(a, moves).history, k);
  }

  lemma StartOfPair(db: Db, changes: seq<Command>, h: History, k: nat)
    requires Durable(db, changes, h) && k < |changes| && changes[k].action == StartTwitch
    ensures k > 0 && changes[k - 1] == Command(StopTwitch, StopRequest(OperationOf(changes[k])), changes[k].binding)
    ensures OperationOf(changes[k - 1]) == OperationOf(changes[k]) && PhaseIs(db, changes[k - 1], Observed)
  {
    hide Tables, StateMatches, Resolved, GenerationOk, Invariant;
    var issued := h.issued;
    assert changes[k] == issued[k];
    assert InTurn(issued, k) && InTurn(issued, k - 1);
    assert PhaseIs(db, issued[k - 1], Observed);
  }

  predicate AskedAt(log: seq<Event>, i: nat, c: Command)
    requires i < |log|
  {
    log[i].command == Some(c) && log[i].kind in {StopAsked, StartAsked} && Link(log, i, DEFAULT_POLICY)
  }

  /** Some linked event of the log asked for the command. */
  predicate Asked(log: seq<Event>, c: Command) {
    exists i :: 0 <= i < |log| && AskedAt(log, i, c)
  }

  /** The reducer event behind every planned change; `EveryStartIsJustified` tells what it rested on. */
  lemma ChangeHasEvent(a: Approval, moves: seq<Move>, k: nat)
    requires k < |Planned(Acts(a, moves).changes)|
    ensures var w := Acts(a, moves);
      var log := Replay(w.history.ticks, DEFAULT_POLICY).log;
      Asked(log, w.changes[k])
  {
    hide Act, Acts, Safe, Replay, Link, Commands;
    ActsSafe(a, moves);
    SafeIsDurable(a, Acts(a, moves));
    PlannedEvent(Acts(a, moves).db, Acts(a, moves).changes, Acts(a, moves).history, k);
  }

  lemma SafeIsDurable(a: Approval, w: World)
    requires Safe(a, w)
    ensures Durable(w.db, w.changes, w.history)
  {
  }

  lemma PlannedEvent(db: Db, changes: seq<Command>, h: History, k: nat)
    requires Durable(db, changes, h) && k < |Planned(changes)|
    ensures Asked(h.run.log, changes[k])
  {
    hide Tables, FrontObserved, StateMatches, Resolved, GenerationOk, Alternating, DistinctRequests, Commands, Link;
    CommandComesFromLog(h.run.log, k);
    assert Commands(h.run.log)[k] == changes[k];
    var i :| 0 <= i < |h.run.log| && h.run.log[i].command == Some(changes[k]);
    assert Link(h.run.log, i, DEFAULT_POLICY);
    CommandEventKind(h.run.log, i);
    assert AskedAt(h.run.log, i, changes[k]);
  }

  lemma CommandEventKind(log: seq<Event>, i: nat)
    requires i < |log| && Link(log, i, DEFAULT_POLICY) && log[i].command.Some?
    ensures log[i].kind in {StopAsked, StartAsked}
  {
  }

  /** Event `i` of the log asked for `start` and the one two before it for `stop`: between them the old writer was
      confirmed stopped, at least the offline wait of boottime before the START, whose OFFLINE fact is no older. */
  predicate TimedStart(log: seq<Event>, i: nat, stop: Command, start: Command)
    requires i < |log|
  {
    && i >= 2 && log[i].command == Some(start) && log[i - 2].command == Some(stop)
    && Answers(log[i - 1], StopRequest(OperationOf(start)), StopObserved, log[i - 2])
    && log[i - 1].inputs.writer.status == Stopped
    && TwitchRuns.Elapsed(log[i]) - TwitchRuns.Elapsed(log[i - 1]) >= DEFAULT_POLICY.offlineWait * SECOND
    && log[i].inputs.broadcast.status == Offline && log[i].inputs.broadcast.observedAt >= Wall(log[i - 1])
    && Authorised(log[i].inputs, DEFAULT_POLICY) && Authorised(log[i - 2].inputs, DEFAULT_POLICY)
    && Wall(log[i]) - Wall(log[i - 2]) < DEFAULT_POLICY.renewalTimeout * SECOND
  }

  ghost predicate Timed(log: seq<Event>, stop: Command, start: Command) {
    exists i :: 0 <= i < |log| && TimedStart(log, i, stop, start)
  }

  /** A START at the relay stands in this timing to the STOP that reached the relay just before it. */
  lemma StartIsTimed(a: Approval, moves: seq<Move>, k: nat)
    requires var changes := Acts(a, moves).changes; k < |changes| && changes[k].action == StartTwitch
    ensures var w := Acts(a, moves);
      k > 0 && Timed(Replay(w.history.ticks, DEFAULT_POLICY).log, w.changes[k - 1], w.changes[k])
  {
    hide Act, Acts, Replay, Safe, Link, Answers, Authorised, Durable, HistoryOk;
    var w := Acts(a, moves);
    ActsSafe(a, moves);
    SafeIsDurable(a, w);
    StartFollowsObservedStop(a, moves, k);
    StartIsPlanned(w.db, w.changes, w.history, k);
    ChangeHasEvent(a, moves, k);
    var log := Replay(w.history.ticks, DEFAULT_POLICY).log;
    var i :| 0 <= i < |log| && AskedAt(log, i, w.changes[k]);
    AskedKind(log, i, w.changes[k]);
    EveryStartIsJustified(w.history.ticks, DEFAULT_POLICY, i);
    assert TimedStart(log, i, w.changes[k - 1], w.changes[k]);
  }

  lemma StartIsPlanned(db: Db, changes: seq<Command>, h: History, k: nat)
    requires Durable(db, changes, h) && k < |changes| && changes[k].action == StartTwitch
    ensures k < |Planned(changes)|
  {
    hide StateMatches, Resolved, GenerationOk, Invariant, FrontObserved, Alternating, DistinctRequests;
  }

  lemma AskedKind(log: seq<Event>, i: nat, c: Command)
    requires i < |log| && AskedAt(log, i, c) && c.action == StartTwitch
    ensures log[i].kind == StartAsked && log[i].command == Some(c)
  {
  }

  /** Whatever happens, the relay keeps the approved YouTube destination first. */
  lemma YouTubeStaysFirst(a: Approval, moves: seq<Move>)
    requires a.forward != []
    ensures var forward := Acts(a, moves).forward;
      && (forward == a.forward || forward == a.forward[..1]) && forward[0] == a.forward[0]
      && (forward != a.forward ==> forward[0].provider == YouTube)
  {
    hide Act, Acts, Durable;
    ActsSafe(a, moves);
  }

  /** The move applies a PATCH to the relay. */
  predicate Patches(a: Approval, w: World, m: Move) {
    || (m.Change? && m.seen.Some? && m.applied && w.process.Dispatched?
        && |a.forward| >= 2 && ForwardUpdate(a.forward, a.forward[1], w.process.command.action).Some?)
    || (m.RescueChange? && m.applied && w.process.RescueDispatched?
        && |a.forward| >= 2 && ForwardUpdate(a.forward, a.forward[1], w.process.command.action).Some?)
  }

  /** Every list that a PATCH produces leads with the approved destination, which is YouTube, and holds at most
      the approved Twitch destination besides; no other move touches the list. */
  lemma PatchLeadsWithYouTube(a: Approval, moves: seq<Move>, m: Move)
    ensures
      var w, next := Acts(a, moves), Act(a, Acts(a, moves), m);
      if Patches(a, w, m)
      then
        && next.forward != [] && next.forward[0] == a.forward[0] && next.forward[0].provider == YouTube
        && (next.forward == a.forward || next.forward == a.forward[..1])
        && (forall k :: 0 < k < |next.forward| ==> next.forward[k].provider == Twitch)
        && (w.process.command.action == StartTwitch <==> |next.forward| == 2)
      else next.forward == w.forward
  {
    hide Acts, Advance, LookMove, BootMove, DispatchMove, RescueMove, DecideMove;
    var w := Acts(a, moves);
    if Patches(a, w, m) {
      assert a.forward == [a.forward[0]] + [a.forward[1]];
    }
    match m
    case Boot(bootId, granted) => ForwardUntouched(a, w, m);
    case Look(r) => ForwardUntouched(a, w, m);
    case Decide => ForwardUntouched(a, w, m);
    case Dispatch => ForwardUntouched(a, w, m);
    case RescueDispatch => ForwardUntouched(a, w, m);
    case Rescue(handlerId) => ForwardUntouched(a, w, m);
    case _ =>
  }

  lemma ForwardUntouched(a: Approval, w: World, m: Move)
    requires !m.Change? && !m.RescueChange?
    ensures Act(a, w, m).forward == w.forward
  {
    hide Advance, ReadingFault, WriterOf, CommitTx, FinishTx, DispatchTx;
  }
}
