/** The renewal owner in the form its program has: a journal object whose transactions update
    tables and roll back, and a loop body that updates the process's variables.  Every method
    is proved to perform moves of the machine in TwitchDaily.
 */
module TwitchDailyOwner {
  import opened Options
  import opened TwitchSession
  import opened TwitchRuns
  import opened TwitchDaily
  import opened TwitchDailyRuns

  class Journal {
    var state: RenewalState
    var outbox: map<RequestId, Row>
    var writer: Writer

    ghost function Tables(): Db
      reads this
    {
      Db(state, outbox, writer)
    }

    constructor (handlerId: Option<string>)
      ensures Tables() == InitialDb(handlerId)
    {
      state := INITIAL_STATE;
      outbox := map[];
      writer := Writer(1, handlerId, false);
    }

    /** Compare-and-set of the state row, with the command's outbox row in the same transaction. */
    method Commit(was: RenewalState, next: RenewalState, command: Option<Command>) returns (ok: bool)
      modifies this
      ensures ok == CommitTx(old(Tables()), was, next, command).Some?
      ensures Tables() == if ok then CommitTx(old(Tables()), was, next, command).value else old(Tables())
      ensures ok <==>
        old(state).revision == was.revision && (command.Some? ==> command.value.requestId !in old(outbox))
      ensures ok ==> state == next && writer == old(writer)
      ensures ok && command.None? ==> outbox == old(outbox)
      ensures ok && command.Some? ==>
        outbox == old(outbox)[command.value.requestId := Row(command.value, Pending, 0, None)]
    {
      var begun := state;
      ok := state.revision == was.revision;
      if ok {
        state := next;
        if command.Some? {
          if command.value.requestId in outbox {
            state := begun;
            ok := false;
          } else {
            outbox := outbox[command.value.requestId := Row(command.value, Pending, 0, None)];
          }
        }
      }
    }

    method DispatchOnce(command: Command) returns (ok: bool)
      modifies this`outbox
      ensures ok == DispatchTx(old(Tables()), command).Some?
      ensures Tables() == if ok then DispatchTx(old(Tables()), command).value else old(Tables())
      ensures ok <==> exists c, outcome ::
        command.requestId in old(outbox) && old(outbox)[command.requestId] == Row(c, Pending, 0, outcome)
      ensures ok ==>
        var row := old(outbox)[command.requestId];
        outbox == old(outbox)[command.requestId := Row(row.command, Dispatching, 1, row.outcome)]
    {
      ok := command.requestId in outbox && outbox[command.requestId].phase == Pending
        && outbox[command.requestId].attempts == 0;
      if ok {
        outbox := outbox[command.requestId := outbox[command.requestId].(phase := Dispatching, attempts := 1)];
      }
    }

    /** Records the physical outcome; a START without a handler rolls the whole transaction back. */
    method Finish(command: Command, outcome: Outcome, handlerId: Option<string>) returns (ok: bool)
      modifies this
      ensures ok == FinishTx(old(Tables()), command, outcome, handlerId).Some?
      ensures Tables() == if ok then FinishTx(old(Tables()), command, outcome, handlerId).value else old(Tables())
      ensures ok <==>
        && command.requestId in old(outbox)
        && var row := old(outbox)[command.requestId];
           row.phase == Dispatching && row.attempts == 1
           && (command.action == StartTwitch ==> handlerId.Some? && handlerId.value != "")
      ensures ok ==>
        var row := old(outbox)[command.requestId];
        && outbox == old(outbox)[command.requestId := Row(row.command, Observed, 1, Some(outcome))]
        && state == old(state)
        && writer == if command.action == StopTwitch then old(writer).(legacyQuiesced := true)
                     else Writer(command.binding.writerGeneration + 1, handlerId, old(writer).legacyQuiesced)
    {
      var begun := outbox;
      ok := command.requestId in outbox && outbox[command.requestId].phase == Dispatching
        && outbox[command.requestId].attempts == 1;
      if ok {
        outbox := outbox[command.requestId := outbox[command.requestId].(phase := Observed, outcome := Some(outcome))];
        if command.action == StopTwitch {
          writer := writer.(legacyQuiesced := true);
        } else if handlerId.None? || handlerId.value == "" {
          outbox := begun;
          ok := false;
        } else {
          writer := writer.(generation := command.binding.writerGeneration + 1, handlerId := handlerId);
        }
      }
    }

    method PendingCount() returns (count: nat)
      ensures count == |Unresolved(Tables())|
    {
      var rows := set id | id in outbox && outbox[id].phase != Observed;
      count := |rows|;
    }

    method OutcomeFor(s: RenewalState) returns (outcome: Option<Outcome>)
      ensures outcome == OutcomeOf(Tables(), s)
    {
      var id := if s.phase == WaitStop then StopRequest(s.operation) else StartRequest(s.operation);
      outcome := None;
      if id in outbox {
        outcome := outbox[id].outcome;
      }
    }
  }

  class Owner {
    const approval: Approval
    const journal: Journal
    const bootId: string
    var state: RenewalState
    var pending: Option<Command>
    var dispatchStarted: int
    var lastSave: int
    var twitchBytes: int
    var twitchProgressAt: int
    // The relay: its forward list and, for the specification, the changes that reached it.
    var forward: seq<Destination>
    ghost var changes: seq<Command>
    ghost var history: History

    ghost function Mem(): Memory
      reads this
    {
      Memory(bootId, state, pending, dispatchStarted, lastSave, twitchBytes, twitchProgressAt)
    }

    ghost function WorldAt(p: Process): World
      reads this, journal
    {
      World(journal.Tables(), p, changes, forward, history)
    }

    constructor (approval: Approval, journal: Journal, bootId: string, forward: seq<Destination>,
                 ghost changes: seq<Command>, ghost history: History)
      ensures this.approval == approval && this.journal == journal && this.bootId == bootId
      ensures Mem() == Memory(bootId, journal.state, None, 0, 0, 0, 0)
      ensures this.forward == forward && this.changes == changes && this.history == history
    {
      this.approval, this.journal, this.bootId := approval, journal, bootId;
      state, pending, dispatchStarted, lastSave := journal.state, None, 0, 0;
      twitchBytes, twitchProgressAt, this.forward := 0, 0, forward;
      this.changes, this.history := changes, history;
    }

    /** The start of the program: unresolved rows, another boot or a missing grant hold it. */
    method Start(granted: bool) returns (running: bool)
      requires Mem() == Memory(bootId, journal.state, None, 0, 0, 0, 0)
      ensures WorldAt(if running then Ready(Mem()) else Exited) == Act(approval, WorldAt(Down), Boot(bootId, granted))
      ensures Unresolved(journal.Tables()) != {} ==> !running
    {
      var count := journal.PendingCount();
      if count > 0 {
        return false;
      }
      if state.lastClock.Some? && state.lastClock.value.bootId != bootId {
        return false;
      }
      running := granted;
    }

    /** Twitch progress is the time at which its outbound bytes last grew. */
    method ObserveRow(elapsed: int, tw: Option<TwitchRow>)
      modifies this`twitchBytes, this`twitchProgressAt
      ensures Mem() == ObserveRelay(old(Mem()), elapsed, tw)
    {
      if tw.Some? && tw.value.outboundBytes > twitchBytes {
        twitchProgressAt := elapsed;
      }
      twitchBytes := if tw.Some? then tw.value.outboundBytes else 0;
    }

    /** Observes the relay and the writer, and settles the dispatched command when its effect shows. */
    method LookAt(r: Reading) returns (raise: Raise, writer: WriterFacts, outcome: Option<Outcome>)
      modifies this`twitchBytes, this`twitchProgressAt, this`pending, journal
      ensures WorldAt(if raise == NoRaise then Looked(Mem(), r, writer, outcome)
                      else Faulting(Mem(), raise == ForwardRaise))
        == Act(approval, old(WorldAt(Ready(Mem()))), Look(r))
      ensures raise == NoRaise ==> r.seen.Some?
    {
      outcome := None;
      writer := WriterFacts(r.now.utc, approval.relayInstance, journal.writer.generation, WriterUnknown, None);
      if r.earlier.Some? {
        ObserveRow(r.earlier.value.elapsed, r.earlier.value.tw);
      }
      if r.seen.None? {
        return OrdinaryRaise, writer, outcome;
      }
      var seen := r.seen.value;
      ObserveRow(r.now.elapsed, seen.tw);
      ghost var mem := Mem();
      ghost var db := journal.Tables();
      writer := ReadWriter(r.now, seen);
      raise := CheckWriter(r.now, seen);
      if raise != NoRaise {
        return;
      }
      outcome := journal.OutcomeFor(state);
      if pending.Some? {
        if Settled(pending.value, writer) {
          outcome := Some(SettledOutcome(pending.value, r.now));
          var ok := journal.Finish(pending.value, outcome.value,
              if seen.tw.Some? then Some(seen.tw.value.id) else None);
          if !ok {
            return OrdinaryRaise, writer, outcome;
          }
          pending := None;
        } else if r.now.elapsed - dispatchStarted > 15 * SECOND {
          return ForwardRaise, writer, outcome;
        }
      }
    }

    method ReadWriter(now: Clock, seen: Seen) returns (facts: WriterFacts)
      ensures facts == WriterOf(approval, journal.Tables(), Mem(), now, seen)
    {
      var status := if seen.tw.Some? && seen.tw.value.forwarding && !seen.tw.value.lastError
        then Running else WriterUnknown;
      if seen.tw.None? && seen.twitchDisabled {
        status := Stopped;
      }
      var generation := journal.writer.generation;
      if state.binding.Some? && (state.phase == WaitStart || state.phase == Verifying) && seen.tw.Some? {
        generation := state.binding.value.writerGeneration + 1;
      }
      facts := WriterFacts(now.utc, approval.relayInstance, generation, status,
                           if status == Running then Some(now.elapsed - twitchProgressAt) else None);
    }

    method CheckWriter(now: Clock, seen: Seen) returns (raise: Raise)
      ensures raise == ReadingFault(journal.Tables(), Mem(), now, seen)
    {
      if state.phase == Tracking {
        if seen.twitchDisabled && !journal.writer.legacyQuiesced {
          return OrdinaryRaise;
        }
        if seen.tw.None? {
          return OrdinaryRaise;
        }
        var expected := journal.writer.handlerId;
        if expected.Some? && expected.value != "" && seen.tw.value.id != expected.value {
          return OrdinaryRaise;
        }
        if journal.writer.legacyQuiesced && now.elapsed - twitchProgressAt > 15 * SECOND {
          return ForwardRaise;
        }
      }
      raise := if seen.tw.Some? && seen.tw.value.lastError then ForwardRaise else NoRaise;
    }

    /** Consults the reducer and commits what must be committed, or what is due to be saved. */
    method DecideOn(r: Reading, writer: WriterFacts, outcome: Option<Outcome>)
      returns (raise: Raise, command: Option<Command>)
      requires r.seen.Some?
      modifies this`state, this`lastSave, this`history, journal
      ensures WorldAt(if raise != NoRaise then Faulting(Mem(), raise == ForwardRaise)
                      else if command.Some? then Committed(Mem(), command.value, r.now.elapsed)
                      else Ready(Mem()))
        == Act(approval, old(WorldAt(Looked(Mem(), r, writer, outcome))), Decide)
    {
      hide Advance, Take, LookMove, ChangeMove, RescueMove, BootMove, DispatchMove;
      if state.phase == Tracking
        && (r.facts.status != Live || r.now.utc - r.facts.observedAt > 60 * SECOND) {
        return NoRaise, None;
      }
      var context := RouteContext(approval.broadcasterId, "PRIMARY", approval.routeGeneration, approval.authorityEpoch,
                                  approval.relayInstance, r.now.bootId,
                                  r.seen.value.leaseDeadline, true, true, true, false);
      var inputs := Inputs(r.now, context, r.facts, writer, outcome, r.validation && state.phase == Tracking);
      var decision := Advance(state, inputs, DEFAULT_POLICY);
      raise, command := TakeDecision(inputs, decision, Looked(Mem(), r, writer, outcome));
    }

    method TakeDecision(inputs: Inputs, decision: Decision, ghost p: Process)
      returns (raise: Raise, command: Option<Command>)
      modifies this`state, this`lastSave, this`history, journal
      ensures WorldAt(if raise != NoRaise then Faulting(Mem(), raise == ForwardRaise)
                      else if command.Some? then Committed(Mem(), command.value, inputs.now.elapsed)
                      else Ready(Mem()))
        == Take(old(WorldAt(p)), old(Mem()), inputs, decision)
    {
      hide CommitTx, Grow;
      ghost var w, mem := WorldAt(p), Mem();
      var changed := decision.state.phase != state.phase || decision.command.Some? || decision.verdict == Renewed;
      var save := inputs.now.elapsed - lastSave >= 60 * SECOND;
      if !changed && !save {
        raise := if IsHalted(decision.state) then OrdinaryRaise else NoRaise;
        return raise, None;
      }
      var ok := journal.Commit(state, decision.state, decision.command);
      if !ok {
        assert WorldAt(p) == w;
        return OrdinaryRaise, None;
      }
      history := Grow(history, Tick(inputs, save), decision);
      state := decision.state;
      lastSave := inputs.now.elapsed;
      command := decision.command;
      raise := if command.None? && IsHalted(decision.state) then OrdinaryRaise else NoRaise;
      ghost var next := w.(db := journal.Tables());
      assert Mem() == mem.(state := decision.state, lastSave := inputs.now.elapsed);
      assert Take(w, mem, inputs, decision) == Adopted(next, Mem(), Tick(inputs, save), decision);
    }

    static predicate IsHalted(s: RenewalState) {
      s.phase == Unknown || s.phase == Cancelled
    }

    /** The only write to the relay, after one more observation; whether the PATCH applied or raised is the
        environment's choice. */
    method SendChange(command: Command, at: int, seen: Option<Seen>, applied: bool, raised: Raise)
      returns (raise: Raise)
      modifies this`forward, this`changes, this`twitchBytes, this`twitchProgressAt
      ensures changes == old(changes) + [command]
      ensures forward == if seen.Some? then Patched(approval, old(forward), command, applied) else old(forward)
      ensures Mem() == if seen.Some? then ObserveRelay(old(Mem()), at, seen.value.tw) else old(Mem())
      ensures raise ==
        if seen.None? || |approval.forward| < 2 then OrdinaryRaise
        else if ForwardUpdate(approval.forward, approval.forward[1], command.action).None? then ForwardRaise
        else raised
    {
      changes := changes + [command];
      if seen.None? {
        return OrdinaryRaise;
      }
      ObserveRow(at, seen.value.tw);
      if |approval.forward| < 2 {
        return OrdinaryRaise;
      }
      var update := ForwardUpdate(approval.forward, approval.forward[1], command.action);
      if update.None? {
        return ForwardRaise;
      }
      if applied {
        forward := update.value;
      }
      raise := raised;
    }

    /** The exception path: after a planned stop this owner performs one Twitch failure stop, then exits. */
    method FailureStop(raise: Raise, handlerId: Option<string>, at: int, seen: Option<Seen>, applied: bool)
      returns (ghost moves: seq<Move>)
      requires raise != NoRaise
      modifies this`forward, this`changes, this`twitchBytes, this`twitchProgressAt, journal
      ensures WorldAt(Exited) == ActsFrom(approval, old(WorldAt(Faulting(Mem(), raise == ForwardRaise))), moves)
    {
      ghost var w := WorldAt(Faulting(Mem(), raise == ForwardRaise));
      moves := [Rescue(handlerId)];
      OneMove(approval, w, Rescue(handlerId));
      if raise != ForwardRaise || !journal.writer.legacyQuiesced || handlerId.None? {
        return;
      }
      var binding := Binding(approval.broadcasterId, approval.routeGeneration, approval.authorityEpoch,
                             approval.relayInstance, bootId, journal.writer.generation);
      var command := Command(StopTwitch, FaultStop(approval.relayInstance, handlerId.value), binding);
      var ok := journal.Commit(state, state.(revision := state.revision + 1, phase := Unknown), Some(command));
      if !ok {
        return;
      }
      MoveExtends(approval, w, moves, RescueDispatch);
      moves := moves + [RescueDispatch];
      ok := journal.DispatchOnce(command);
      if !ok {
        return;
      }
      MoveExtends(approval, w, moves, RescueChange(seen.Some? && applied));
      moves := moves + [RescueChange(seen.Some? && applied)];
      var ignored := SendChange(command, at, seen, applied, OrdinaryRaise);
    }

    method DispatchCommitted(command: Command, at: int) returns (raise: Raise)
      modifies journal
      ensures raise in {NoRaise, OrdinaryRaise}
      ensures WorldAt(if raise == NoRaise then Dispatched(Mem(), command, at) else Faulting(Mem(), false))
        == Act(approval, old(WorldAt(Committed(Mem(), command, at))), Dispatch)
    {
      var ok := journal.DispatchOnce(command);
      raise := if ok then NoRaise else OrdinaryRaise;
    }

    method SendDispatched(command: Command, at: int, seen: Option<Seen>, applied: bool, raised: Raise)
      returns (raise: Raise)
      requires applied || raised != NoRaise
      modifies this`forward, this`changes, this`pending, this`dispatchStarted, this`twitchBytes, this`twitchProgressAt
      ensures WorldAt(if raise == NoRaise then Ready(Mem()) else Faulting(Mem(), raise == ForwardRaise))
        == Act(approval, old(WorldAt(Dispatched(Mem(), command, at))), Change(seen, applied, raised))
    {
      raise := SendChange(command, at, seen, applied, raised);
      if raise == NoRaise {
        pending, dispatchStarted := Some(command), at;
      }
    }

    /** A whole process: it holds, or iterates until it is asked to stop or raises. */
    method Run(granted: bool, iterations: seq<Iteration>) returns (ghost moves: seq<Move>)
      requires Mem() == Memory(bootId, journal.state, None, 0, 0, 0, 0)
      requires forall k :: 0 <= k < |iterations| ==> iterations[k].applied || iterations[k].raised != NoRaise
      modifies this, journal
      ensures WorldAt(Exited) == ActsFrom(approval, old(WorldAt(Down)), moves)
      ensures old(Unresolved(journal.Tables())) != {} ==>
        journal.Tables() == old(journal.Tables()) && changes == old(changes) && forward == old(forward)
    {
      hide Act, ActsFrom;
      ghost var w := WorldAt(Down);
      var running := Start(granted);
      moves := [Boot(bootId, granted)];
      OneMove(approval, w, Boot(bootId, granted));
      var k := 0;
      while running && k < |iterations|
        invariant 0 <= k <= |iterations|
        invariant WorldAt(if running then Ready(Mem()) else Exited) == ActsFrom(approval, w, moves)
        invariant old(Unresolved(journal.Tables())) != {} ==>
          !running && journal.Tables() == old(journal.Tables()) && changes == old(changes) && forward == old(forward)
      {
        var step := iterations[k];
        ghost var more;
        running, more := Iterate(step);
        MovesJoin(approval, w, moves, more);
        moves := moves + more;
        k := k + 1;
      }
      if running {
        ExitMove(approval, ActsFrom(approval, w, moves));
        MoveExtends(approval, w, moves, Exit);
        moves := moves + [Exit];
      }
    }

    /** One iteration of the loop, as the moves that it performs. */
    method Iterate(step: Iteration) returns (running: bool, ghost moves: seq<Move>)
      requires step.applied || step.raised != NoRaise
      modifies this, journal
      ensures WorldAt(if running then Ready(Mem()) else Exited)
        == ActsFrom(approval, old(WorldAt(Ready(Mem()))), moves)
    {
      hide Act, ActsFrom;
      ghost var w := WorldAt(Ready(Mem()));
      var r := step.reading;
      var raise, writer, outcome := LookAt(r);
      moves := [Look(r)];
      OneMove(approval, w, Look(r));
      if raise == NoRaise {
        var command;
        raise, command := DecideOn(r, writer, outcome);
        MoveExtends(approval, w, moves, Decide);
        moves := moves + [Decide];
        if raise == NoRaise && command.Some? {
          raise := DispatchCommitted(command.value, r.now.elapsed);
          MoveExtends(approval, w, moves, Dispatch);
          moves := moves + [Dispatch];
          if raise == NoRaise {
            raise := SendDispatched(command.value, r.now.elapsed, step.seen, step.applied, step.raised);
            MoveExtends(approval, w, moves, Change(step.seen, step.applied, step.raised));
            moves := moves + [Change(step.seen, step.applied, step.raised)];
          }
        }
      }
      running := raise == NoRaise;
      if !running {
        ghost var tail := FailureStop(raise, step.faultHandler, r.now.elapsed, step.faultSeen, step.faultApplied);
        MovesJoin(approval, w, moves, tail);
        moves := moves + tail;
      }
    }
  }

  /** What one iteration meets: its reading, and how the relay and the fault path would answer. */
  datatype Iteration = Iteration(
    reading: Reading, seen: Option<Seen>, applied: bool, raised: Raise,
    faultHandler: Option<string>, faultSeen: Option<Seen>, faultApplied: bool)

  lemma OneMove(a: Approval, w: World, m: Move)
    ensures ActsFrom(a, w, [m]) == Act(a, w, m)
  {
    assert [m][..0] == [];
  }

  lemma ExitMove(a: Approval, w: World)
    requires w.process.Ready?
    ensures Act(a, w, Exit) == w.(process := Exited)
  {
  }

  lemma MoveExtends(a: Approval, w: World, moves: seq<Move>, m: Move)
    ensures ActsFrom(a, w, moves + [m]) == Act(a, ActsFrom(a, w, moves), m)
  {
    assert (moves + [m])[..|moves|] == moves;
  }

  lemma {:induction false} MovesJoin(a: Approval, w: World, first: seq<Move>, second: seq<Move>)
    ensures ActsFrom(a, w, first + second) == ActsFrom(a, ActsFrom(a, w, first), second)
  {
    if second == [] {
      assert first + second == first;
    } else {
      var n := |second| - 1;
      MovesJoin(a, w, first, second[..n]);
      assert first + second == (first + second[..n]) + [second[n]];
      MoveExtends(a, w, first + second[..n], second[n]);
    }
  }
}
