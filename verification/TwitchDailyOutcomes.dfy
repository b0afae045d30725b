/** What the renewal owner does at every reachable point, exactly, on what it read: which looks end the process and
    which of those ask for the failure stop, what a look settles, when a decision issues a command, and where the
    fault path ends.
 */
module TwitchDailyOutcomes {
  import opened Options
  import opened TwitchSession
  import opened TwitchRuns
  import opened TwitchDaily
  import opened TwitchDailyRuns

  // ----- A start

  /** Exactly when a process starts: every row was observed, the boot is the one of the last clock kept, and any grant
      it needs is there; nothing but the process changes. */
  lemma BootsExactlyWhen(a: Approval, w: World, bootId: string, granted: bool)
    requires w.process in {Down, Exited}
    ensures
      var next, clock := Act(a, w, Boot(bootId, granted)), w.db.state.lastClock;
      && next == w.(process := next.process)
      && (next.process == Ready(Memory(bootId, w.db.state, None, 0, 0, 0, 0)) <==>
            && (forall id :: id in w.db.outbox ==> w.db.outbox[id].phase == Observed)
            && (clock.Some? ==> clock.value.bootId == bootId) && granted)
      && (!next.process.Ready? ==> next.process == Exited)
  {
    assert Unresolved(w.db) == {} <==> forall id :: id in w.db.outbox ==> w.db.outbox[id].phase == Observed by {
      if Unresolved(w.db) == {} {
        forall id | id in w.db.outbox ensures w.db.outbox[id].phase == Observed {
          assert id !in Unresolved(w.db);
        }
      }
    }
  }

  // ----- The relay's list

  /** Exactly which lists may be rewritten, and to what: YouTube alone, or with the given Twitch entry after it. */
  lemma ForwardUpdateExactly(current: seq<Destination>, twitch: Destination, action: Action)
    ensures
      var update := ForwardUpdate(current, twitch, action);
      && (update.Some? <==>
            current != [] && current[0].provider == YouTube && twitch.provider == Twitch
            && (current == [current[0]] || current == [current[0], twitch]))
      && (update.Some? ==>
            update.value == if action == StartTwitch then [current[0], twitch] else [current[0]])
  {
  }

  // ----- A look, on the reading itself

  /** When Twitch's outbound bytes last grew, after the one or two observations of a look. */
  function LastGrowth(mem: Memory, r: Reading): int
    requires r.seen.Some?
  {
    var first, now := r.earlier, r.seen.value.tw;
    var before :=
      if first.None? then mem.twitchBytes
      else if first.value.tw.None? then 0 else first.value.tw.value.outboundBytes;
    if now.Some? && before < now.value.outboundBytes then r.now.elapsed
    else if first.Some? && first.value.tw.Some? && mem.twitchBytes < first.value.tw.value.outboundBytes then
      first.value.elapsed
    else mem.twitchProgressAt
  }

  predicate Fails(r: Reading)
    requires r.seen.Some?
  {
    r.seen.value.tw.Some? && r.seen.value.tw.value.lastError
  }

  predicate Runs(r: Reading)
    requires r.seen.Some?
  {
    r.seen.value.tw.Some? && r.seen.value.tw.value.forwarding && !r.seen.value.tw.value.lastError
  }

  predicate Gone(r: Reading)
    requires r.seen.Some?
  {
    r.seen.value.tw.None? && r.seen.value.twitchDisabled
  }

  /** While no renewal is under way: the Twitch row was disabled by somebody else, or is missing, or is another one. */
  predicate Displaced(db: Db, mem: Memory, r: Reading)
    requires r.seen.Some?
  {
    var tw, known := r.seen.value.tw, db.writer.handlerId;
    mem.state.phase == Tracking &&
    ((r.seen.value.twitchDisabled && !db.writer.legacyQuiesced)
     || tw.None? || (known.Some? && known.value != "" && tw.value.id != known.value))
  }

  /** The Twitch row reports an error, or after a planned stop has not grown for more than 15 s. */
  predicate Troubled(db: Db, mem: Memory, r: Reading)
    requires r.seen.Some?
  {
    || Fails(r)
    || (mem.state.phase == Tracking && db.writer.legacyQuiesced && r.now.elapsed - LastGrowth(mem, r) > 15 * SECOND)
  }

  /** The relay shows what the dispatched command asked for. */
  predicate Shows(mem: Memory, r: Reading)
    requires r.seen.Some?
  {
    && mem.pending.Some?
    && if mem.pending.value.action == StopTwitch then Gone(r)
       else Runs(r) && r.now.elapsed - LastGrowth(mem, r) < 2 * SECOND
  }

  /** The dispatched command has shown nothing for more than 15 s. */
  predicate Unanswered(mem: Memory, r: Reading)
    requires r.seen.Some?
  {
    mem.pending.Some? && !Shows(mem, r) && r.now.elapsed - mem.dispatchStarted > 15 * SECOND
  }

  /** A START shows itself by a row without a name, which the journal refuses. */
  predicate Nameless(mem: Memory, r: Reading)
    requires r.seen.Some?
  {
    Shows(mem, r) && mem.pending.value.action == StartTwitch && r.seen.value.tw.value.id == ""
  }

  /** What the relay showed is what the reducer is told. */
  predicate Told(a: Approval, db: Db, mem: Memory, r: Reading, writer: WriterFacts)
    requires r.seen.Some?
  {
    && writer.observedAt == r.now.utc && writer.relayInstance == a.relayInstance
    && (writer.status == Running <==> Runs(r)) && (writer.status == Stopped <==> Gone(r))
    && writer.progressAge == (if Runs(r) then Some(r.now.elapsed - LastGrowth(mem, r)) else None)
    && writer.generation ==
         if mem.state.phase in {WaitStart, Verifying} && mem.state.binding.Some? && r.seen.value.tw.Some?
         then mem.state.binding.value.writerGeneration + 1 else db.writer.generation
  }

  predicate AsksForRescue(db: Db, mem: Memory, r: Reading) {
    r.seen.Some? && !Displaced(db, mem, r) && (Troubled(db, mem, r) || Unanswered(mem, r))
  }

  predicate EndsQuietly(db: Db, mem: Memory, r: Reading) {
    r.seen.None? || Displaced(db, mem, r) || (!Troubled(db, mem, r) && Nameless(mem, r))
  }

  /** Exactly which looks end the process, and which of those ask for the failure stop. */
  lemma LookEndsExactlyWhen(a: Approval, moves: seq<Move>, r: Reading)
    requires Acts(a, moves).process.Ready?
    ensures
      var w := Acts(a, moves);
      var next := Act(a, w, Look(r)).process;
      && (next.Looked? || next.Faulting?)
      && (next.Faulting? && next.rescue <==> AsksForRescue(w.db, w.process.mem, r))
      && (next.Faulting? && !next.rescue <==> EndsQuietly(w.db, w.process.mem, r))
  {
    hide Acts, Durable, OutcomeOf, SettledOutcome, ReadingFault, WriterOf, Settled, ObserveRelay, Displaced, Troubled;
    var w := Acts(a, moves);
    ActsSafe(a, moves);
    if w.process.mem.pending.Some? {
      PendingRow(w.db, w.changes, w.history, w.process.mem);
    }
    if r.seen.Some? {
      MemoryAfter(w.process.mem, r);
      FaultOnReading(w.db, w.process.mem, r);
      WriterOnReading(a, w.db, w.process.mem, r);
    }
  }

  /** The memory after the observations of a look. */
  function AfterLook(mem: Memory, r: Reading): Memory
    requires r.seen.Some?
  {
    ObserveRelay(ObserveEarlier(mem, r.earlier), r.now.elapsed, r.seen.value.tw)
  }

  lemma MemoryAfter(mem: Memory, r: Reading)
    requires r.seen.Some?
    ensures
      AfterLook(mem, r) ==
        mem.(twitchProgressAt := LastGrowth(mem, r),
             twitchBytes := if r.seen.value.tw.None? then 0 else r.seen.value.tw.value.outboundBytes)
  {
  }

  lemma FaultOnReading(db: Db, mem: Memory, r: Reading)
    requires r.seen.Some?
    ensures
      ReadingFault(db, AfterLook(mem, r), r.now, r.seen.value) ==
        if Displaced(db, mem, r) then OrdinaryRaise else if Troubled(db, mem, r) then ForwardRaise else NoRaise
  {
    hide AfterLook, LastGrowth;
    MemoryAfter(mem, r);
  }

  lemma WriterOnReading(a: Approval, db: Db, mem: Memory, r: Reading)
    requires r.seen.Some?
    ensures
      var writer := WriterOf(a, db, AfterLook(mem, r), r.now, r.seen.value);
      && Told(a, db, mem, r, writer)
      && (mem.pending.Some? ==> (Settled(mem.pending.value, writer) <==> Shows(mem, r)))
  {
    hide AfterLook, LastGrowth;
    MemoryAfter(mem, r);
  }

  /** The row of the dispatched command can be finished. */
  lemma PendingRow(db: Db, changes: seq<Command>, h: History, mem: Memory)
    requires Durable(db, changes, h) && MemoryOk(db, changes, h, mem) && mem.pending.Some?
    ensures
      var id := mem.pending.value.requestId;
      id in db.outbox && db.outbox[id] == Row(mem.pending.value, Dispatching, 1, None)
  {
    hide Sound, FrontObserved, ChangesOk, GenerationOk, StateMatches, Resolved, RescueOnce;
    LastRow(db, h.issued);
  }

  /** The journal after the effect of a command was seen: its row is observed at that time, and a STOP quiesces the
      old writer while a START names the new one and counts its generation. */
  predicate Settles(db: Db, next: Db, c: Command, r: Reading)
    requires r.seen.Some? && c.requestId in db.outbox
  {
    var outcome := Outcome(c.action, c.requestId, c.binding,
                           if c.action == StopTwitch then StopObserved else StartObserved, r.now.utc);
    && next.state == db.state
    && next.outbox == db.outbox[c.requestId := Row(c, Observed, 1, Some(outcome))]
    && if c.action == StopTwitch then next.writer == db.writer.(legacyQuiesced := true)
       else
         && r.seen.value.tw.Some?
         && next.writer ==
              Writer(c.binding.writerGeneration + 1, Some(r.seen.value.tw.value.id), db.writer.legacyQuiesced)
  }

  /** The outcome that the journal holds of the request the phase waits on. */
  function Stored(db: Db, s: RenewalState): Option<Outcome> {
    var stop, start := StopRequest(s.operation), StartRequest(s.operation);
    if s.phase == WaitStop && stop in db.outbox then db.outbox[stop].outcome
    else if s.phase != WaitStop && start in db.outbox then db.outbox[start].outcome
    else None
  }

  /** Exactly what a look that goes on leaves behind. */
  lemma LookSettlesExactlyWhen(a: Approval, moves: seq<Move>, r: Reading)
    requires Acts(a, moves).process.Ready?
    requires Act(a, Acts(a, moves), Look(r)).process.Looked?
    ensures
      var w, next := Acts(a, moves), Act(a, Acts(a, moves), Look(r));
      var mem, p := w.process.mem, next.process;
      && p.reading == r && r.seen.Some? && Told(a, w.db, mem, r, p.writer)
      && p.mem.state == mem.state && p.mem.twitchProgressAt == LastGrowth(mem, r)
      && p.mem.twitchBytes == (if r.seen.value.tw.None? then 0 else r.seen.value.tw.value.outboundBytes)
      && if Shows(mem, r) then
           && PendingIsRow(w.db, mem) && Settles(w.db, next.db, mem.pending.value, r)
           && p.mem.pending.None? && p.outcome == next.db.outbox[mem.pending.value.requestId].outcome
         else next.db == w.db && p.mem.pending == mem.pending && p.outcome == Stored(w.db, mem.state)
  {
    hide Acts, Durable, ReadingFault, WriterOf, Settled, ObserveRelay, LastGrowth, Told;
    var w := Acts(a, moves);
    ActsSafe(a, moves);
    if w.process.mem.pending.Some? {
      PendingRow(w.db, w.changes, w.history, w.process.mem);
    }
    if r.seen.Some? {
      MemoryAfter(w.process.mem, r);
      WriterOnReading(a, w.db, w.process.mem, r);
    }
  }

  predicate PendingIsRow(db: Db, mem: Memory) {
    mem.pending.Some? && mem.pending.value.requestId in db.outbox
  }

  // ----- A decision, on what was looked at

  /** The facts that the reducer is given are the ones looked at. */
  predicate FactsOf(p: Process, i: Inputs)
    requires p.Looked?
  {
    && i.now == p.reading.now && i.broadcast == p.reading.facts && i.writer == p.writer && i.outcome == p.outcome
    && (i.validationAuthorized <==> p.reading.validation && p.mem.state.phase == Tracking)
  }

  /** While no renewal is under way the reducer is only consulted on a live broadcast observed in the last 60 s. */
  predicate Asked(p: Process)
    requires p.Looked?
  {
    && (p.mem.state.phase == Tracking ==>
          p.reading.facts.status == Live && p.reading.now.utc <= p.reading.facts.observedAt + 60 * SECOND)
    && SameTimeline(p.mem.state, p.reading.now, DEFAULT_POLICY)
  }

  /** The approval names a target, its broadcaster is the one observed, and the relay's lease is running. */
  predicate Permitted(a: Approval, p: Process)
    requires p.Looked? && p.reading.seen.Some?
  {
    && IsId(a.broadcasterId) && a.routeGeneration > 0 && a.authorityEpoch > 0 && a.relayInstance != ""
    && p.reading.facts.broadcasterId == a.broadcasterId && p.reading.now.elapsed < p.reading.seen.value.leaseDeadline
  }

  /** The renewal under way is bound to this approval and boot. */
  predicate Bound(a: Approval, p: Process)
    requires p.Looked?
  {
    p.mem.state.binding.Some? ==>
      p.mem.state.binding.value == Binding(a.broadcasterId, a.routeGeneration, a.authorityEpoch, a.relayInstance,
                                           p.reading.now.bootId, p.mem.state.binding.value.writerGeneration)
  }

  predicate Proceeds(a: Approval, p: Process, i: Inputs)
    requires p.Looked? && p.reading.seen.Some?
  {
    && Asked(p) && Permitted(a, p) && Bound(a, p) && !Overdue(p.mem.state, p.reading.now, DEFAULT_POLICY)
    && Evidence(p.mem.state, i, DEFAULT_POLICY)
  }

  predicate GivesUp(a: Approval, p: Process, i: Inputs)
    requires p.Looked? && p.reading.seen.Some?
  {
    && Asked(p) && InRenewal(p.mem.state)
    && (!Bound(a, p)
        || (Permitted(a, p)
            && (Overdue(p.mem.state, p.reading.now, DEFAULT_POLICY) || Fatal(p.mem.state, i, DEFAULT_POLICY))))
  }

  /** A decision is saved with the move it makes, or when none was saved for 60 s. */
  predicate SavedBy(a: Approval, p: Process, i: Inputs)
    requires p.Looked? && p.reading.seen.Some?
  {
    Proceeds(a, p, i) || (Consults(p) && p.reading.now.elapsed - p.mem.lastSave >= 60 * SECOND)
  }

  /** Exactly when a decision issues a command, moves the renewal on, ends the process, or does none of these, and
      when it is written. */
  lemma DecidesExactlyWhen(a: Approval, moves: seq<Move>, i: Inputs)
    requires Acts(a, moves).process.Looked?
    requires FactsOf(Acts(a, moves).process, i)
    ensures Acts(a, moves).process.reading.seen.Some?
    ensures
      var w, next := Acts(a, moves), Act(a, Acts(a, moves), Decide);
      var p, phase := w.process, w.process.mem.state.phase;
      && (next.process.Committed? <==> Proceeds(a, p, i) && phase in {Tracking, WaitOffline})
      && (next.process.Faulting? <==> phase in {Unknown, Cancelled} || GivesUp(a, p, i))
      && (next.process.Faulting? ==> !next.process.rescue)
      && (next.process.Ready? <==> !next.process.Committed? && !next.process.Faulting?)
      && (next.db.state.phase !in {phase, Unknown, Cancelled} <==> Proceeds(a, p, i))
      && (next.db.state != w.db.state <==>
            && phase !in {Unknown, Cancelled} && Asked(p)
            && (Proceeds(a, p, i) || GivesUp(a, p, i) || p.reading.now.elapsed - p.mem.lastSave >= 60 * SECOND))
      && (next.process.Committed? ==> next.process.at == p.reading.now.elapsed)
      && (next.process.Ready? || next.process.Committed? ==>
            next.process.mem == p.mem.(state := next.db.state,
                                       lastSave := if SavedBy(a, p, i) then p.reading.now.elapsed else p.mem.lastSave))
  {
    hide Acts, Durable, HistoryOk, Advance, Evidence, Emitted, Replay, Authorised, Cleared, Superseded, Fatal, Overdue,
      SameTimeline, Permitted, Bound, InputsOf, ProcessOk, Act, Told, Known, Credible;
    var w := Acts(a, moves);
    ActsSafe(a, moves);
    LookedIsTold(a, moves);
    LookedState(a, w);
    var given := InputsOf(a, w.process);
    GivenFacts(a, w.process, i);
    InputsAuthorised(a, w.process);
    DecisionCommits(a, w);
    DecideShape(a, w);
    if Absorbed(w.history.run.state) {
      HaltedDecision(w.history.run.state, given, DEFAULT_POLICY);
    } else {
      EventsAreMoves(w.history.run, given, DEFAULT_POLICY);
      MovesExactlyOnEvidence(w.history.ticks, given, DEFAULT_POLICY);
      RecordsExactly(w.history.ticks, given, DEFAULT_POLICY);
      HaltsExactlyWhen(w.history.ticks, given, DEFAULT_POLICY);
      ClearedParts(w.process.mem.state, given, DEFAULT_POLICY);
    }
  }

  lemma HaltedDecision(s: RenewalState, i: Inputs, policy: Policy)
    requires StateOk(s) && Absorbed(s)
    ensures
      var d := Advance(s, i, policy);
      && d.state == s && d.command.None? && d.verdict != Renewed
      && !Evidence(s, i, policy) && !InRenewal(s) && s.phase != Tracking
  {
  }

  lemma ClearedParts(s: RenewalState, i: Inputs, policy: Policy)
    requires i.context.routeState == "PRIMARY" && !i.context.routeChangePending
    ensures Cleared(s, i, policy) <==> !Superseded(s, i) && Authorised(i, policy) && !Overdue(s, i.now, policy)
  {
  }

  /** The writer facts of the last look come from the relay and the journal of that moment. */
  predicate Current(a: Approval, p: Process) {
    p.Looked? ==>
      && p.reading.seen.Some? && p.writer.observedAt == p.reading.now.utc
      && p.writer.relayInstance == a.relayInstance && p.writer.generation > 0
  }

  lemma {:induction false} LookedIsTold(a: Approval, moves: seq<Move>)
    ensures Current(a, Acts(a, moves).process)
  {
    hide Act, Durable, HistoryOk;
    if moves != [] {
      var front := moves[..|moves| - 1];
      LookedIsTold(a, front);
      ActsSafe(a, front);
      ActKeepsCurrent(a, Acts(a, front), moves[|moves| - 1]);
    }
  }

  lemma ActKeepsCurrent(a: Approval, w: World, m: Move)
    requires Safe(a, w) && HistoryOk(w.history) && Current(a, w.process)
    ensures Current(a, Act(a, w, m).process)
  {
    hide Durable, HistoryOk, Advance, WriterOf, ReadingFault, Settled, CommitTx, FinishTx, DispatchTx, OutcomeOf;
    if m.Look? && w.process.Ready? && m.reading.seen.Some? {
      WriterIsNumbered(a, w, m.reading);
    }
  }

  lemma WriterIsNumbered(a: Approval, w: World, r: Reading)
    requires Safe(a, w) && w.process.Ready? && r.seen.Some?
    ensures
      var writer := WriterOf(a, w.db, AfterLook(w.process.mem, r), r.now, r.seen.value);
      writer.observedAt == r.now.utc && writer.relayInstance == a.relayInstance && writer.generation > 0
  {
    hide Tables, FrontObserved, ChangesOk, Resolved, RescueOnce, Commands, Alternating, DistinctRequests, Linked;
  }

  lemma LookedState(a: Approval, w: World)
    requires Safe(a, w) && HistoryOk(w.history) && w.process.Looked?
    ensures
      && w.process.mem.state == w.db.state == w.history.run.state
      && w.history.run == Replay(w.history.ticks, DEFAULT_POLICY)
      && Invariant(w.history.run, DEFAULT_POLICY) && NoRescue(w.db)
  {
    hide Tables, FrontObserved, ChangesOk, GenerationOk, Resolved, RescueOnce, Invariant, Replay;
  }

  lemma GivenFacts(a: Approval, p: Process, i: Inputs)
    requires p.Looked? && p.reading.seen.Some? && FactsOf(p, i)
    ensures
      var s, given := p.mem.state, InputsOf(a, p);
      && Evidence(s, given, DEFAULT_POLICY) == Evidence(s, i, DEFAULT_POLICY)
      && Fatal(s, given, DEFAULT_POLICY) == Fatal(s, i, DEFAULT_POLICY)
      && given.now == p.reading.now && given.context.routeState == "PRIMARY" && !given.context.routeChangePending
  {
    hide NextDailyRenewal, IsId;
  }

  lemma InputsAuthorised(a: Approval, p: Process)
    requires p.Looked? && p.reading.seen.Some? && Current(a, p)
    ensures
      var given := InputsOf(a, p);
      && (Authorised(given, DEFAULT_POLICY) <==> Permitted(a, p))
      && (Superseded(p.mem.state, given) <==> !Bound(a, p))
  {
    hide IsId;
  }

  /** A decision that has to be written always can be. */
  lemma DecisionCommits(a: Approval, w: World)
    requires Safe(a, w) && HistoryOk(w.history) && w.process.Looked? && w.process.reading.seen.Some?
    ensures
      var d := Advance(w.process.mem.state, InputsOf(a, w.process), DEFAULT_POLICY);
      CommitTx(w.db, w.process.mem.state, d.state, d.command).Some?
  {
    hide Advance, FrontObserved, ChangesOk, GenerationOk, Resolved, RescueOnce, Invariant, HistoryOk, Commands, Emitted,
      Alternating, Apply;
    LookedState(a, w);
    var t := Tick(InputsOf(a, w.process), true);
    var d := Advance(w.history.run.state, t.inputs, DEFAULT_POLICY);
    HistoryGrows(w.history, t);
    var next := Grow(w.history, t, d);
    SoundHistory(next);
    if d.command.Some? {
      var c := d.command.value;
      IssuedAreNotRescues(next.issued);
      assert next.issued[|w.history.issued|] == c;
      assert forall k :: 0 <= k < |w.history.issued| ==> next.issued[k] == w.history.issued[k];
      assert !IsIssued(w.history.issued, c.requestId);
    }
  }

  /** Where a decision leaves the process and the state row. */
  lemma DecideShape(a: Approval, w: World)
    requires w.process.Looked? && w.process.reading.seen.Some?
    requires
      var d := Advance(w.process.mem.state, InputsOf(a, w.process), DEFAULT_POLICY);
      CommitTx(w.db, w.process.mem.state, d.state, d.command).Some?
    ensures
      var p, next := w.process, Act(a, w, Decide);
      var s, d := p.mem.state, Advance(p.mem.state, InputsOf(a, p), DEFAULT_POLICY);
      var written := Consults(p)
        && (d.state.phase != s.phase || d.command.Some? || d.verdict == Renewed
            || p.reading.now.elapsed - p.mem.lastSave >= 60 * SECOND);
      && next.db.state == (if written then d.state else w.db.state)
      && (next.process.Committed? <==> written && d.command.Some?)
      && (next.process.Faulting? <==> Consults(p) && d.state.phase in {Unknown, Cancelled} && !next.process.Committed?)
      && (next.process.Faulting? ==> !next.process.rescue)
      && (next.process.Ready? <==> !next.process.Committed? && !next.process.Faulting?)
      && (next.process.Committed? ==> next.process.at == p.reading.now.elapsed)
      && (next.process.Ready? || next.process.Committed? ==>
            next.process.mem == p.mem.(state := if written then d.state else s,
                                       lastSave := if written then p.reading.now.elapsed else p.mem.lastSave))
  {
    hide Advance;
  }

  // ----- Where a command goes

  predicate Forwards(a: Approval) {
    |a.forward| == 2 && a.forward[0].provider == YouTube && a.forward[1].provider == Twitch
  }

  lemma FourMoves(a: Approval, w: World, m0: Move, m1: Move, m2: Move, m3: Move)
    ensures ActsFrom(a, w, [m0, m1]) == Act(a, Act(a, w, m0), m1)
    ensures ActsFrom(a, w, [m0, m1, m2, m3]) == Act(a, Act(a, Act(a, Act(a, w, m0), m1), m2), m3)
  {
    hide Act;
    assert [m0, m1, m2, m3][..3] == [m0, m1, m2] && [m0, m1, m2][..2] == [m0, m1] && [m0, m1][..1] == [m0];
    assert [m0][..0] == [] && ActsFrom(a, w, [m0]) == Act(a, w, m0);
    assert ActsFrom(a, w, [m0, m1, m2]) == Act(a, Act(a, Act(a, w, m0), m1), m2);
  }

  /** A committed command reaches the relay once the process lives on, and is awaited from then. */
  lemma CommittedIsSent(a: Approval, moves: seq<Move>, seen: Seen)
    requires Acts(a, moves).process.Committed? && Forwards(a)
    ensures
      var w := Acts(a, moves);
      var p, after := w.process, ActsFrom(a, w, [Dispatch, Change(Some(seen), true, NoRaise)]);
      && after.changes == w.changes + [p.command]
      && after.forward == (if p.command.action == StartTwitch then a.forward else a.forward[..1])
      && after.process.Ready? && after.process.mem.state == p.mem.state
      && after.process.mem.pending == Some(p.command) && after.process.mem.dispatchStarted == p.at
      && PhaseIs(after.db, p.command, Dispatching)
  {
    hide Acts, Durable, HistoryOk;
    var w := Acts(a, moves);
    ActsSafe(a, moves);
    CommittedRow(w.db, w.changes, w.history, w.process.command);
    FourMoves(a, w, Dispatch, Change(Some(seen), true, NoRaise), Exit, Exit);
    assert a.forward == [a.forward[0]] + [a.forward[1]];
  }

  /** Exactly how a change ends, whatever the relay answers: in any case it counts as tried; it is awaited if and only
      if the relay was observed, the list may be rewritten and the PATCH applied without an error; and a failure asks
      for the rescue if and only if the list may not be rewritten or the forwarding itself failed. */
  lemma ChangeEndsExactlyWhen(a: Approval, w: World, seen: Option<Seen>, applied: bool, raise: Raise)
    requires w.process.Dispatched?
    ensures
      var c, next := w.process.command, Act(a, w, Change(seen, applied, raise));
      var rewritable := |a.forward| > 1 && ForwardUpdate(a.forward, a.forward[1], c.action).Some?;
      && next.changes == w.changes + [c] && next.db == w.db
      && (next.process.Ready? || next.process.Faulting?)
      && (next.process.Ready? <==> seen.Some? && rewritable && applied && raise == NoRaise)
      && (next.process.Ready? ==>
            next.process.mem.pending == Some(c) && next.process.mem.dispatchStarted == w.process.at)
      && (next.process.Faulting? && next.process.rescue <==>
            seen.Some? && |a.forward| > 1 && (!rewritable || raise == ForwardRaise))
  {
    hide ForwardUpdate;
  }

  /** An exception between two moves leads to the fault path, and one on the fault path ends the process. */
  lemma InterruptEnds(a: Approval, w: World, raise: Raise)
    requires w.process !in {Down, Exited} && !w.process.Faulting?
    ensures
      var next := Act(a, w, Interrupt(raise));
      && next == w.(process := next.process)
      && if w.process.RescueCommitted? || w.process.RescueDispatched? then next.process == Exited
         else next.process == Faulting(w.process.mem, raise == ForwardRaise)
  {
  }

  lemma CommittedRow(db: Db, changes: seq<Command>, h: History, c: Command)
    requires Durable(db, changes, h) && PhaseIs(db, c, Pending)
    ensures db.outbox[c.requestId].attempts == 0
  {
    KnownRow(db, h.issued, c.requestId);
  }

  /** After a planned stop, a look that asks for the rescue ends, once the process lives through the fault path, in one
      failure STOP more and the YouTube entry alone; its row stays unresolved, so no later process touches the relay. */
  lemma RescueStopsTwitch(a: Approval, moves: seq<Move>, r: Reading, handlerId: string)
    requires Acts(a, moves).process.Ready? && Acts(a, moves).db.writer.legacyQuiesced && Forwards(a)
    requires AsksForRescue(Acts(a, moves).db, Acts(a, moves).process.mem, r)
    ensures
      var w := Acts(a, moves);
      var after := ActsFrom(a, w, [Look(r), Rescue(Some(handlerId)), RescueDispatch, RescueChange(true)]);
      var stop := Command(StopTwitch, FaultStop(a.relayInstance, handlerId),
                          Binding(a.broadcasterId, a.routeGeneration, a.authorityEpoch, a.relayInstance,
                                  w.process.mem.bootId, w.db.writer.generation));
      && after.changes == w.changes + [stop] && after.forward == [a.forward[0]] && after.process == Exited
      && after.db.state.phase == Unknown && PhaseIs(after.db, stop, Dispatching)
      && stop.requestId in Unresolved(after.db)
  {
    hide Acts, Durable, HistoryOk, AsksForRescue, LookMove, RescueMove, DispatchMove, Patched;
    var w := Acts(a, moves);
    ActsSafe(a, moves);
    LookEndsExactlyWhen(a, moves, r);
    LookFailsPlainly(a, w, r);
    FourMoves(a, w, Look(r), Rescue(Some(handlerId)), RescueDispatch, RescueChange(true));
    RescuePath(a, Act(a, w, Look(r)), handlerId);
  }

  lemma RescuePath(a: Approval, w: World, handlerId: string)
    requires Forwards(a) && w.process.Faulting? && w.process.rescue && w.db.writer.legacyQuiesced
    requires NoRescue(w.db) && w.process.mem.state == w.db.state
    ensures
      var stop := Command(StopTwitch, FaultStop(a.relayInstance, handlerId),
                          Binding(a.broadcasterId, a.routeGeneration, a.authorityEpoch, a.relayInstance,
                                  w.process.mem.bootId, w.db.writer.generation));
      var after := Act(a, Act(a, Act(a, w, Rescue(Some(handlerId))), RescueDispatch), RescueChange(true));
      && after.changes == w.changes + [stop] && after.forward == [a.forward[0]] && after.process == Exited
      && after.db.state.phase == Unknown && PhaseIs(after.db, stop, Dispatching)
      && stop.requestId in Unresolved(after.db)
  {
    assert a.forward == [a.forward[0]] + [a.forward[1]];
  }

  /** A look that fails changes nothing but the process. */
  lemma LookFailsPlainly(a: Approval, w: World, r: Reading)
    requires w.process.Ready? && Act(a, w, Look(r)).process.Faulting?
    ensures
      var next := Act(a, w, Look(r));
      && next == w.(process := next.process)
      && next.process.mem.state == w.process.mem.state && next.process.mem.bootId == w.process.mem.bootId
  {
    hide ReadingFault, WriterOf, Settled, FinishTx;
  }

  /** Exactly when the fault path issues a failure STOP; otherwise it only ends the process. */
  lemma RescuesExactlyWhen(a: Approval, moves: seq<Move>, handlerId: Option<string>)
    requires Acts(a, moves).process.Faulting?
    ensures
      var w, next := Acts(a, moves), Act(a, Acts(a, moves), Rescue(handlerId));
      && (next.process.RescueCommitted? <==> w.process.rescue && w.db.writer.legacyQuiesced && handlerId.Some?)
      && (!next.process.RescueCommitted? ==> next == w.(process := Exited))
  {
    hide Acts, Durable, HistoryOk;
    ActsSafe(a, moves);
  }

  // ----- When the old guard is quiesced

  predicate StopSeen(row: Row) {
    row.phase == Observed && row.command.action == StopTwitch
  }

  ghost predicate QuiescedOk(db: Db) {
    db.writer.legacyQuiesced <==> exists id :: id in db.outbox && StopSeen(db.outbox[id])
  }

  /** The guard counts as quiesced exactly when some planned STOP was seen to take effect. */
  lemma {:induction false} QuiescedAfterStop(a: Approval, moves: seq<Move>)
    ensures
      var db := Acts(a, moves).db;
      db.writer.legacyQuiesced <==> exists id :: id in db.outbox && StopSeen(db.outbox[id])
  {
    hide Act, Safe, HistoryOk;
    if moves != [] {
      var front := moves[..|moves| - 1];
      QuiescedAfterStop(a, front);
      ActsSafe(a, front);
      ActKeepsQuiesced(a, Acts(a, front), moves[|moves| - 1]);
    }
  }

  lemma ActKeepsQuiesced(a: Approval, w: World, m: Move)
    requires Safe(a, w) && HistoryOk(w.history) && QuiescedOk(w.db)
    ensures QuiescedOk(Act(a, w, m).db)
  {
    hide Durable, HistoryOk, QuiescedOk, Advance, ReadingFault, WriterOf, Settled, OutcomeOf, FinishTx, CommitTx,
      DispatchTx;
    match m
    case Look(r) =>
      if w.process.Ready? && r.seen.Some? && w.process.mem.pending.Some? {
        PendingRow(w.db, w.changes, w.history, w.process.mem);
        FinishKeepsQuiesced(w.db, w.process.mem.pending.value);
      }
    case _ =>
      CommitKeepsQuiesced(w.db);
      DispatchKeepsQuiesced(w.db);
  }

  lemma FinishKeepsQuiesced(db: Db, c: Command)
    requires QuiescedOk(db) && c.requestId in db.outbox && db.outbox[c.requestId].command == c
    ensures forall outcome, handlerId :: FinishTx(db, c, outcome, handlerId).Some? ==>
      QuiescedOk(FinishTx(db, c, outcome, handlerId).value)
  {
    forall outcome, handlerId | FinishTx(db, c, outcome, handlerId).Some?
      ensures QuiescedOk(FinishTx(db, c, outcome, handlerId).value)
    {
      var next := FinishTx(db, c, outcome, handlerId).value;
      RowsSeen(db, next, c.requestId);
      assert next.outbox[c.requestId].command == c;
    }
  }

  lemma CommitKeepsQuiesced(db: Db)
    requires QuiescedOk(db)
    ensures forall was, state, c :: CommitTx(db, was, state, c).Some? ==> QuiescedOk(CommitTx(db, was, state, c).value)
  {
    forall was, state, c | CommitTx(db, was, state, c).Some?
      ensures QuiescedOk(CommitTx(db, was, state, c).value)
    {
      if c.Some? {
        RowsSeen(db, CommitTx(db, was, state, c).value, c.value.requestId);
      }
    }
  }

  lemma DispatchKeepsQuiesced(db: Db)
    requires QuiescedOk(db)
    ensures forall c :: DispatchTx(db, c).Some? ==> QuiescedOk(DispatchTx(db, c).value)
  {
    forall c | DispatchTx(db, c).Some? ensures QuiescedOk(DispatchTx(db, c).value) {
      RowsSeen(db, DispatchTx(db, c).value, c.requestId);
    }
  }

  /** Only one row is written. */
  lemma RowsSeen(db: Db, next: Db, id: RequestId)
    requires id in next.outbox && next.outbox == db.outbox[id := next.outbox[id]]
    requires id in db.outbox ==> !StopSeen(db.outbox[id])
    ensures (exists k :: k in next.outbox && StopSeen(next.outbox[k])) <==>
      StopSeen(next.outbox[id]) || exists k :: k in db.outbox && StopSeen(db.outbox[k])
  {
    forall k | k in db.outbox && StopSeen(db.outbox[k]) ensures k in next.outbox && StopSeen(next.outbox[k]) {
      assert k != id;
    }
  }
}
