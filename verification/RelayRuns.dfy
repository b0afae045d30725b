/** What every run of relay guards keeps, over crashes, restarts and any interleaving of requests and ticks. */
module RelayRuns {
  import opened Options
  import opened RelayLease
  import opened RelayGuard

  // ----- The lease ledger

  predicate Justified(c: Consumed) {
    && WellTyped(c.body) && c.lease.terms == TermsOf(c.body)
    && c.lease.terms.sequence > 0
    && c.body[RelayInstance] == Text(c.config.instance)
    && c.lease.terms.target == c.config.grant.target && c.lease.terms.authorityEpoch == c.config.grant.authorityEpoch
    && (!c.config.continuous ==> c.lease.terms.grantExpiresAt == c.config.grant.expiresAt)
    && c.lease.Valid(c.wall, c.elapsed)
    && c.lease.elapsedDeadline <= c.elapsed + 15.0
  }

  /** `a` was committed before `b`. */
  predicate Ordered(a: Consumed, b: Consumed) {
    && a.lease.terms.sequence < b.lease.terms.sequence
    && a.boot <= b.boot
    && (a.boot == b.boot ==>
          && a.config == b.config
          && SameIdentity(a.lease.terms, b.lease.terms, b.config.continuous)
          && a.lease.terms.inputSequence < b.lease.terms.inputSequence)
  }

  ghost predicate Ledger(used: seq<Consumed>, row: int, boots: nat) {
    && (forall i :: 0 <= i < |used| ==> Justified(used[i]) && used[i].boot <= boots)
    && (forall i, j :: 0 <= i < j < |used| ==> Ordered(used[i], used[j]))
    && row == (if used == [] then 0 else used[|used| - 1].lease.terms.sequence)
  }

  /** What this instance accepted last is what it holds. */
  predicate Holds(used: seq<Consumed>, row: int, boots: nat, g: Instance) {
    && g.highwater == row
    && if used != [] && used[|used| - 1].boot == boots
       then g.lease == Some(used[|used| - 1].lease) && g.config == used[|used| - 1].config
       else g.lease.None?
  }

  // ----- The forwarding state

  const FULL := [Enable, DisableTwitch]

  predicate Forwarding(g: Instance, failing: bool, sent: seq<Patch>) {
    && (g.halted ==> !g.enabled)
    && (g.enabled ==> g.lease.Some? && g.lastBytes > 0 && g.firstAttempt.Some? && [Enable] <= sent)
    && (g.enabled && !failing ==> sent == if g.twitchDisabled then FULL else [Enable])
    && (!g.enabled && !g.halted && !failing ==> sent == [])
    && (g.twitchDisabled ==> sent == FULL)
  }

  ghost predicate Safe(w: World) {
    && Ledger(w.used, w.row, w.boots)
    && w.sent <= FULL
    && (w.live.Some? ==> Holds(w.used, w.row, w.boots, w.live.value) && Forwarding(w.live.value, w.failing, w.sent))
  }

  lemma PrefixesOfFull(sent: seq<Patch>)
    requires sent <= FULL
    ensures sent == [] || sent == [Enable] || (sent == FULL && sent[1] == DisableTwitch)
  {
    assert sent == FULL[..|sent|];
  }

  // ----- Keeping it

  lemma AcceptIsJustified(w: World, request: Request, wall: real, elapsed: real)
    requires Safe(w) && w.live.Some?
    requires Judge(w.live.value, request, wall, elapsed).Admitted?
    ensures request.lease.Some?
    ensures
      var g := w.live.value;
      var c := Consumed(w.boots, g.config, request.lease.value, Judge(g, request, wall, elapsed).lease, wall, elapsed);
      Justified(c) && c.lease.terms.sequence > w.row
      && (w.used != [] ==> Ordered(w.used[|w.used| - 1], c))
  {
  }

  lemma LedgerGrows(used: seq<Consumed>, row: int, boots: nat, c: Consumed)
    requires Ledger(used, row, boots) && Justified(c) && c.boot == boots && c.lease.terms.sequence > row
    requires used != [] ==> Ordered(used[|used| - 1], c)
    ensures Ledger(used + [c], c.lease.terms.sequence, boots)
  {
    var grown := used + [c];
    forall i, j | 0 <= i < j < |grown| ensures Ordered(grown[i], grown[j]) {
      if j == |used| && i < |used| - 1 {
        var last := used[|used| - 1];
        assert Ordered(used[i], last) && Ordered(last, c) && used[i].boot <= last.boot;
      }
    }
  }

  lemma AcceptKeepsSafe(w: World, request: Request, wall: real, elapsed: real, update: Update)
    requires Safe(w) && w.live.Some?
    ensures Safe(AcceptStep(w, request, wall, elapsed, update))
  {
    hide Ledger, Judge, Justified, Ordered;
    var g := w.live.value;
    var answer := Judge(g, request, wall, elapsed);
    if answer.Admitted? && update != RefusedByStorage {
      AcceptIsJustified(w, request, wall, elapsed);
      LedgerGrows(w.used, w.row, w.boots,
                  Consumed(w.boots, g.config, request.lease.value, answer.lease, wall, elapsed));
    }
  }

  // ----- One tick, stage by stage

  predicate Kept(g: Instance, h: Instance) {
    h.config == g.config && h.lease == g.lease && h.highwater == g.highwater && h.grantDeadline == g.grantDeadline
  }

  /** How a tick's PATCHes and its forwarding flags go together. */
  predicate Shaped(g: Instance, o: Outcome) {
    && (o.g.halted ==> !o.g.enabled && !o.raised)
    && (o.g.enabled ==> o.g.firstAttempt.Some? && (g.enabled || Enable in o.patches))
    && (!o.g.enabled && !o.g.halted && !o.raised ==> !g.enabled && o.patches == [])
    && (o.g.twitchDisabled ==> g.twitchDisabled || DisableTwitch in o.patches)
    && (DisableTwitch in o.patches && !o.raised ==> o.g.twitchDisabled)
    && (g.twitchDisabled ==> o.g.twitchDisabled)
    && (if g.enabled then o.patches == [] || (o.patches == [DisableTwitch] && !g.twitchDisabled) else o.patches <= FULL)
  }

  /** Two rows share a position, or a row has none of the two known positions. */
  predicate Misbound(rows: seq<Destination>) {
    || (exists i, j :: 0 <= i < |rows| && 0 <= j < |rows| && i != j && rows[i].position == rows[j].position)
    || (exists i :: 0 <= i < |rows| && rows[i].position !in {1, 2})
  }

  /** A row at that position reports an error, or none forwards more than 15 s after the first attempt. */
  predicate Lost(rows: seq<Destination>, position: int, waited: real) {
    || (exists i :: 0 <= i < |rows| && rows[i].position == position && rows[i].error)
    || (waited > 15.0 && forall i :: 0 <= i < |rows| && rows[i].position == position ==> !rows[i].forwarding)
  }

  lemma FailingIsLost(rows: seq<Destination>, position: int, waited: real)
    ensures Failing(rows, position, waited > 15.0) <==> Lost(rows, position, waited)
    ensures Bound(rows) <==> !Misbound(rows)
  {
    if exists r :: r in rows && r.position == position && r.forwarding {
      var r :| r in rows && r.position == position && r.forwarding;
      var i :| 0 <= i < |rows| && rows[i] == r;
    }
  }

  /** YouTube is not failing, and Twitch is either not failing or disabled. */
  predicate Serving(m: Meets, h: Instance) {
    && m.destinations.Answer? && !Misbound(m.destinations.value) && h.firstAttempt.Some?
    && !Lost(m.destinations.value, 1, m.youtubeNow - h.firstAttempt.value)
    && (h.twitchDisabled || !Lost(m.destinations.value, 2, m.twitchNow - h.firstAttempt.value))
  }

  /** The lease is running on boottime, and on a wall clock between its issue, less 2 s, and both its ends. */
  predicate Authorises(lease: Lease, wall: real, elapsed: real) {
    && elapsed < lease.elapsedDeadline
    && lease.terms.issuedAt - 2.0 <= wall < lease.terms.expiresAt && wall < lease.terms.grantExpiresAt
  }

  /** The evidence that an instance still forwards on after a tick. */
  predicate Evident(m: Meets, h: Instance) {
    && !m.exited && Serving(m, h)
    && h.lease.Some? && Authorises(h.lease.value, m.leaseWall, m.now)
    && (!h.config.continuous ==> m.wall < h.config.grant.expiresAt && m.now < h.grantDeadline)
    && m.online == Answer(true) && m.now - h.lastProgress <= 4.0 && h.lastBytes > 0
    && (m.publisher.Answer? && m.publisher.value.Some? ==> h.inputId == m.publisher.value.value.id)
  }

  predicate Enabling(g: Instance, m: Meets, h: Instance) {
    && !g.enabled && g.lease.Some?
    && Authorises(g.lease.value, m.leaseWall, m.now) && Authorises(g.lease.value, m.forwardWall, m.forwardNow)
    && m.now - h.lastProgress < 2.0 && h.lastBytes > 0
  }

  predicate Pinned(before: Instance, after: Instance) {
    && after.config == before.config
    && (before.inputId != "" ==> after.inputId == before.inputId)
    && after.lastBytes >= before.lastBytes
    && (before.halted ==> after.halted)
    && (before.twitchDisabled ==> after.twitchDisabled)
  }

  lemma WatchShape(g: Instance, m: Meets)
    requires !g.halted && (g.enabled ==> g.firstAttempt.Some?)
    ensures Shaped(g, Watch(g, m)) && Kept(g, Watch(g, m).g) && Enable !in Watch(g, m).patches
    ensures
      var h := Watch(g, m).g;
      && h.inputId == g.inputId && h.lastBytes == g.lastBytes && h.lastProgress == g.lastProgress
      && (h.enabled ==> g.enabled)
      && (h.enabled && !Watch(g, m).raised ==> Serving(m, h))
      && h.lastWall == g.lastWall && h.lastElapsed == g.lastElapsed
  {
    hide Failing, Bound, Lost, Misbound;
    if m.destinations.Answer? && g.firstAttempt.Some? {
      FailingIsLost(m.destinations.value, 1, m.youtubeNow - g.firstAttempt.value);
      FailingIsLost(m.destinations.value, 2, m.twitchNow - g.firstAttempt.value);
    }
  }

  /** What holds once the clocks, the grant and the lease have been checked. */
  predicate Checked(g: Instance, m: Meets) {
    && !g.halted && !m.exited
    && (g.enabled ==> g.lease.Some? && g.lastBytes > 0 && g.firstAttempt.Some?)
    && (!g.enabled ==> !g.twitchDisabled)
    && (g.lease.Some? ==> g.lease.value.Valid(m.leaseWall, m.now))
    && (!g.config.continuous ==> m.wall < g.config.grant.expiresAt && m.now < g.grantDeadline)
  }

  predicate Read(g: Instance, m: Meets) {
    m.online.Answer?
    && (m.online.value && m.publisher.Answer? && m.publisher.value.Some? ==> g.inputId == m.publisher.value.value.id)
  }

  /** A tick that does not halt follows the last one in wall time, in step with boottime. */
  predicate InStep(g: Instance, m: Meets, h: Instance) {
    && h.lastWall == m.wall && h.lastElapsed == m.now
    && g.lastWall <= m.wall && Abs((m.wall - g.lastWall) - (m.now - g.lastElapsed)) <= 2.0
  }

  predicate TickFacts(g: Instance, m: Meets, o: Outcome) {
    && Shaped(g, o) && Kept(g, o.g) && Pinned(g, o.g)
    && (o.g.enabled && !o.raised ==> Evident(m, o.g))
    && (Enable in o.patches ==> Enabling(g, m, o.g))
    && (o.g.enabled ==> o.g.lastBytes > 0)
  }

  lemma GateFacts(g: Instance, m: Meets)
    requires Checked(g, m) && Read(g, m)
    ensures TickFacts(g, m, Gate(g, m))
    ensures Gate(g, m).g.lastWall == g.lastWall && Gate(g, m).g.lastElapsed == g.lastElapsed
  {
    hide Watch, Serving;
    var on := g.(enabled := true, reason := "FORWARDING", firstAttempt := Some(m.stamp));
    WatchShape(g, m);
    WatchShape(on, m);
  }

  lemma ReadFacts(g: Instance, m: Meets)
    requires Checked(g, m)
    ensures TickFacts(g, m, ReadInput(g, m))
    ensures ReadInput(g, m).g.lastWall == g.lastWall && ReadInput(g, m).g.lastElapsed == g.lastElapsed
  {
    hide Gate, Serving;
    if m.online.Answer? && m.online.value && m.publisher.Answer? && m.publisher.value.Some? {
      var c := m.publisher.value.value;
      if g.inputId == "" || g.inputId == c.id {
        GateFacts(Pin(g, c, m.now), m);
      }
    } else if m.online.Answer? && (!m.online.value || m.publisher.Answer?) {
      GateFacts(g, m);
    }
  }

  lemma TickHasFacts(g: Instance, m: Meets)
    requires g.halted ==> !g.enabled
    requires g.enabled ==> g.lease.Some? && g.lastBytes > 0 && g.firstAttempt.Some?
    requires !g.enabled && !g.halted ==> !g.twitchDisabled
    ensures TickFacts(g, m, Tick(g, m))
    ensures !Tick(g, m).g.halted ==> InStep(g, m, Tick(g, m).g)
  {
    hide ReadInput, Serving;
    if !g.halted && !m.exited && !ClockChanged(g, m.wall, m.now)
      && (g.config.continuous || (m.now < g.grantDeadline && m.wall < g.config.grant.expiresAt))
      && (g.lease.Some? ==> g.lease.value.Valid(m.leaseWall, m.now)) {
      ReadFacts(g.(lastWall := m.wall, lastElapsed := m.now), m);
    }
  }

  lemma HaltedTicks(g: Instance, m: Meets)
    ensures g.halted ==> Tick(g, m) == Outcome(g, [], false)
  {
  }

  lemma TickKeepsForwarding(g: Instance, m: Meets, sent: seq<Patch>)
    requires Forwarding(g, false, sent) && sent <= FULL
    ensures
      var o := Tick(g, m);
      Forwarding(o.g, o.raised, sent + o.patches) && sent + o.patches <= FULL && Kept(g, o.g)
  {
    hide Tick, Evident;
    var o := Tick(g, m);
    TickHasFacts(g, m);
    HaltedTicks(g, m);
    assert sent + [] == sent && [] + o.patches == o.patches && [Enable] + [DisableTwitch] == FULL;
    if o.patches <= FULL {
      PrefixesOfFull(o.patches);
    }
  }

  lemma StepKeepsSafe(w: World, e: Event)
    requires Safe(w)
    ensures Safe(Step(w, e))
  {
    hide Tick, AcceptStep, Ordered, Justified;
    match e
    case Accept(request, wall, elapsed, update) =>
      if w.live.Some? {
        AcceptKeepsSafe(w, request, wall, elapsed, update);
      }
    case Ticks(meets) =>
      if w.live.Some? && !w.failing {
        TickKeepsForwarding(w.live.value, meets, w.sent);
      }
    case _ =>
  }

  /** Every world that a run reaches is safe: accepted sequences strictly increase over all restarts and crashes,
      an instance never changes identity, and it never sends more than one enabling and one disabling PATCH. */
  lemma {:induction false} RunKeepsSafe(w: World, events: seq<Event>)
    requires Safe(w)
    ensures Safe(Run(w, events))
    decreases |events|
  {
    if events != [] {
      StepKeepsSafe(w, events[0]);
      RunKeepsSafe(Step(w, events[0]), events[1..]);
    }
  }

  // ----- What the invariant means

  /** Accepted lease sequences strictly increase over a whole history; each lease was signed content for this
      relay, valid when admitted, for at most 15 s of boottime; one instance keeps one identity and progresses. */
  lemma LeasesAreSpentOnce(events: seq<Event>, i: nat, j: nat)
    requires i < j < |Run(INITIAL, events).used|
    ensures
      var used := Run(INITIAL, events).used;
      && used[i].lease.terms.sequence < used[j].lease.terms.sequence
      && used[i].body != used[j].body
      && Justified(used[i]) && Justified(used[j])
      && (used[i].boot == used[j].boot ==>
            && SameIdentity(used[i].lease.terms, used[j].lease.terms, used[j].config.continuous)
            && used[i].lease.terms.inputSequence < used[j].lease.terms.inputSequence)
  {
    RunKeepsSafe(INITIAL, events);
    var used := Run(INITIAL, events).used;
    assert Ordered(used[i], used[j]);
  }

  predicate OneInstance(events: seq<Event>) {
    forall k :: 0 <= k < |events| ==> !events[k].Boot? && !events[k].Crash?
  }

  /** A halted instance stays exactly as it is: no request, tick or stop accepts, forwards or patches again. */
  lemma {:induction false} HaltedForever(w: World, events: seq<Event>)
    requires w.live.Some? && w.live.value.halted && !w.live.value.enabled && OneInstance(events)
    ensures Run(w, events) == w.(failing := Run(w, events).failing)
    decreases |events|
  {
    if events != [] {
      var next := Step(w, events[0]);
      assert next == w.(failing := next.failing);
      HaltedForever(next, events[1..]);
    }
  }

  /** The input identity is the first one pinned, and input bytes never go back, as long as the instance lives. */
  lemma {:induction false} FirstInputStaysPinned(w: World, events: seq<Event>)
    requires Safe(w) && w.live.Some? && OneInstance(events) && Run(w, events).live.Some?
    ensures Pinned(w.live.value, Run(w, events).live.value)
    decreases |events|
  {
    hide Tick, Judge, Ledger, Holds;
    if events != [] {
      var next := Step(w, events[0]);
      StepKeepsSafe(w, events[0]);
      if events[0].Ticks? && !w.failing {
        TickHasFacts(w.live.value, events[0].meets);
      }
      if next.live.None? {
        DeadStaysDead(next, events[1..]);
      } else {
        FirstInputStaysPinned(next, events[1..]);
      }
    }
  }

  /** How many ticks the instance took part in. */
  function TicksIn(events: seq<Event>): nat {
    if events == [] then 0 else (if events[0].Ticks? then 1 else 0) + TicksIn(events[1..])
  }

  /** As long as an instance has not halted, wall time never went back between its ticks and drifted from boottime
      by at most two seconds a tick. */
  lemma {:induction false} ClocksStayInStep(w: World, events: seq<Event>)
    requires Safe(w) && w.live.Some? && OneInstance(events)
    requires Run(w, events).live.Some? && !Run(w, events).live.value.halted
    ensures
      var before, after := w.live.value, Run(w, events).live.value;
      && before.lastWall <= after.lastWall
      && Abs((after.lastWall - before.lastWall) - (after.lastElapsed - before.lastElapsed))
           <= 2.0 * TicksIn(events) as real
    decreases |events|
  {
    hide Tick, Judge, Ledger, Holds, TickFacts;
    if events != [] {
      var next := Step(w, events[0]);
      StepKeepsSafe(w, events[0]);
      if events[0].Ticks? && !w.failing {
        TickHasFacts(w.live.value, events[0].meets);
      }
      if next.live.None? {
        DeadStaysDead(next, events[1..]);
      } else {
        if next.live.value.halted {
          HaltedForever(next, events[1..]);
        }
        ClocksStayInStep(next, events[1..]);
      }
    }
  }

  lemma {:induction false} DeadStaysDead(w: World, events: seq<Event>)
    requires w.live.None? && OneInstance(events)
    ensures Run(w, events).live.None?
    decreases |events|
  {
    if events != [] {
      DeadStaysDead(Step(w, events[0]), events[1..]);
    }
  }

  // ----- What one tick may leave behind

  /** After any tick of any run, a relay that forwards does so under a lease that this very instance committed
      less than 15 s of boottime ago and that is valid at that tick, on an online input seen in the last 4 s. */
  lemma ForwardingIsAuthorised(events: seq<Event>, m: Meets)
    requires var w := Run(INITIAL, events); w.live.Some? && !w.failing
    requires var o := Tick(Run(INITIAL, events).live.value, m); o.g.enabled && !o.raised
    ensures
      var w := Run(INITIAL, events);
      var o := Tick(w.live.value, m);
      && Evident(m, o.g)
      && w.used != [] && w.used[|w.used| - 1].boot == w.boots && w.used[|w.used| - 1].config == o.g.config
      && o.g.lease == Some(w.used[|w.used| - 1].lease)
      && m.now < w.used[|w.used| - 1].elapsed + 15.0
  {
    hide Tick, Run, Ordered;
    var w := Run(INITIAL, events);
    RunKeepsSafe(INITIAL, events);
    TickHasFacts(w.live.value, m);
    assert Justified(w.used[|w.used| - 1]);
  }

  /** The enabling PATCH is only sent while not forwarding, under a lease checked again just before, on input that
      progressed in the last 2 s. */
  lemma EnablingIsJustified(events: seq<Event>, m: Meets)
    requires var w := Run(INITIAL, events); w.live.Some? && !w.failing
    requires Enable in Tick(Run(INITIAL, events).live.value, m).patches
    ensures
      var w := Run(INITIAL, events);
      Enabling(w.live.value, m, Tick(w.live.value, m).g) && !w.live.value.halted && w.sent == []
  {
    hide Tick, Run, Ledger;
    var w := Run(INITIAL, events);
    RunKeepsSafe(INITIAL, events);
    TickHasFacts(w.live.value, m);
    HaltedTicks(w.live.value, m);
  }

  // ----- Exactly which requests are accepted

  /** A request that this instance accepts: it has not halted, and the signed lease is for it, within the operator's
      grant and all limits, new, and a renewal of the lease it holds. */
  predicate Acceptable(g: Instance, request: Request, wall: real, elapsed: real) {
    && !g.halted && request.lease.Some? && request.signature.Some?
    && Addressed(request.lease.value, request.signature.value, g.config.key, g.config.instance)
    && WellTyped(request.lease.value)
    && var t := TermsOf(request.lease.value);
       && t.target == g.config.grant.target && t.authorityEpoch == g.config.grant.authorityEpoch
       && (g.config.continuous || t.grantExpiresAt == g.config.grant.expiresAt)
       && t.sequence > g.highwater && WithinLimits(t, wall, g.config.continuous)
       && (g.lease.Some? ==> Renews(t, g.lease.value.terms, g.config.continuous))
  }

  /** Exactly what a request does: an acceptable one that the storage takes is committed and then held, unless the
      program dies in between; any other changes nothing. */
  lemma AcceptsExactlyWhen(w: World, request: Request, wall: real, elapsed: real, update: Update)
    requires w.live.Some?
    ensures
      var g, next := w.live.value, Step(w, Accept(request, wall, elapsed, update));
      if Acceptable(g, request, wall, elapsed) && update != RefusedByStorage then
        && |next.used| == |w.used| + 1 && next.used[..|w.used|] == w.used
        && var c := next.used[|w.used|];
           && c == Consumed(w.boots, g.config, request.lease.value, c.lease, wall, elapsed)
           && c.lease.terms == TermsOf(request.lease.value) && next.row == c.lease.terms.sequence
           && c.lease.elapsedDeadline ==
                elapsed + (if c.lease.terms.expiresAt - wall > 15.0 then 15.0 else c.lease.terms.expiresAt - wall)
           && next == w.(row := next.row, used := next.used, live := next.live)
           && next.live == if update == CommittedThenCrashed then None
                           else Some(g.(highwater := next.row, lease := Some(c.lease)))
      else next == w
  {
    hide Admit, Addressed, WithinLimits, Renews, TermsOf;
    if request.lease.Some? && request.signature.Some? {
      var g := w.live.value;
      AdmittedExactlyWhen(request.lease.value, request.signature.value, g.config.key, g.config.instance, g.highwater,
                          wall, elapsed, g.lease, g.config.continuous);
      GrantMatches(request.lease.value, g.config);
    }
  }

  lemma GrantMatches(body: Body, config: Config)
    ensures WellTyped(body) ==>
      (MatchesGrant(body, config) <==>
         && TermsOf(body).target == config.grant.target && TermsOf(body).authorityEpoch == config.grant.authorityEpoch
         && (config.continuous || TermsOf(body).grantExpiresAt == config.grant.expiresAt))
  {
  }

  // ----- From a start to forwarding

  /** The clocks of a tick go on from those of the start, and a finite grant has ended on neither. */
  predicate GoesOn(config: Config, wall: real, elapsed: real, m: Meets) {
    && !m.exited && wall <= m.wall && m.now - elapsed - 2.0 <= m.wall - wall <= m.now - elapsed + 2.0
    && (config.continuous || (m.wall < config.grant.expiresAt && m.now - elapsed < config.grant.expiresAt - wall))
  }

  /** A tick that sees the input publish and both destinations forward. */
  predicate SeesAll(m: Meets) {
    && m.online == Answer(true) && m.publisher.Answer? && m.publisher.value.Some?
    && m.publisher.value.value.inboundBytes > 0
    && m.enable.Answer? && m.readable
    && m.destinations == Answer([Destination(1, true, false), Destination(2, true, false)])
  }

  /** A new instance that is given a lease for it, above every sequence ever used, forwards at its first tick. */
  lemma ForwardingBegins(events: seq<Event>, config: Config, progress: real, wall: real, elapsed: real,
                         request: Request, at: real, since: real, m: Meets)
    requires
      var row := Run(INITIAL, events).row;
      && request.lease.Some? && request.signature.Some?
      && Addressed(request.lease.value, request.signature.value, config.key, config.instance)
      && WellTyped(request.lease.value)
      && var t := TermsOf(request.lease.value);
         && t.target == config.grant.target && t.authorityEpoch == config.grant.authorityEpoch
         && (config.continuous || t.grantExpiresAt == config.grant.expiresAt)
         && t.sequence > row && WithinLimits(t, at, config.continuous)
         && m.now < since + 15.0 && m.now - since < t.expiresAt - at && m.forwardNow <= m.now
         && t.issuedAt - 2.0 <= m.leaseWall < t.expiresAt && t.issuedAt - 2.0 <= m.forwardWall < t.expiresAt
    requires GoesOn(config, wall, elapsed, m) && SeesAll(m)
    ensures
      var after := Run(INITIAL, events + [Boot(config, progress, wall, elapsed),
                                          Accept(request, at, since, Committed), Ticks(m)]);
      && after.live.Some? && after.live.value.enabled && !after.live.value.halted && !after.failing
      && after.sent == [Enable] && after.row == TermsOf(request.lease.value).sequence
  {
    hide Run, Tick, AcceptStep, Judge, Addressed, TermsOf, Step, Does, Watches, Stops, Raises, Enables, Lists,
      DisablesTwitch;
    var boot, accept := Boot(config, progress, wall, elapsed), Accept(request, at, since, Committed);
    var w := Run(INITIAL, events);
    var booted := Step(w, boot);
    var held := Step(booted, accept);
    BootsReady(w, boot);
    AcceptsExactlyWhen(booted, request, at, since, Committed);
    RunsOn(events, [boot, accept, Ticks(m)]);
    RunsOn(events, [boot, accept]);
    ThreeSteps(w, boot, accept, Ticks(m));
    TickDoesExactly(events + [boot, accept], m);
    FirstTick(held.live.value, m);
    TickStep(held, m);
  }

  lemma RunsOn(events: seq<Event>, more: seq<Event>)
    ensures Run(INITIAL, events + more) == Run(Run(INITIAL, events), more)
  {
    RunJoins(INITIAL, events, more);
  }

  lemma {:induction false} RunJoins(w: World, events: seq<Event>, more: seq<Event>)
    ensures Run(w, events + more) == Run(Run(w, events), more)
    decreases |events|
  {
    hide Step;
    if events == [] {
      assert events + more == more;
    } else {
      assert (events + more)[0] == events[0] && (events + more)[1..] == events[1..] + more;
      RunJoins(Step(w, events[0]), events[1..], more);
    }
  }

  lemma ThreeSteps(w: World, a: Event, b: Event, c: Event)
    ensures Run(w, [a, b]) == Step(Step(w, a), b)
    ensures Run(w, [a, b, c]) == Step(Step(Step(w, a), b), c)
  {
    hide Step;
    assert [a, b, c][1..] == [b, c] && [b, c][1..] == [c] && [a, b][1..] == [b] && [b][1..] == [] && [c][1..] == [];
    assert Run(Step(Step(w, a), b), [c]) == Step(Step(Step(w, a), b), c);
    assert Run(Step(w, a), [b]) == Step(Step(w, a), b);
  }

  lemma TickStep(w: World, m: Meets)
    requires w.live.Some? && !w.failing
    ensures
      var o, next := Tick(w.live.value, m), Step(w, Ticks(m));
      next == w.(live := Some(o.g), failing := o.raised, sent := w.sent + o.patches)
  {
    hide Tick;
  }

  /** The first tick of an instance under a lease, on everything it needs. */
  lemma FirstTick(g: Instance, m: Meets)
    requires !g.halted && !g.enabled && g.inputId == "" && g.lastBytes == 0 && !g.twitchDisabled && g.lease.Some?
    requires Timely(g, m) && SeesAll(m) && Authorises(g.lease.value, m.forwardWall, m.forwardNow)
    ensures Does(g, m, Tick(g, m)) ==>
      var o := Tick(g, m);
      o.g.enabled && !o.g.halted && !o.raised && o.patches == [Enable]
  {
    hide Tick, Timely;
    var rows := m.destinations.value;
    assert rows[0] == Destination(1, true, false) && rows[1] == Destination(2, true, false);
  }

  /** A tick that raised is followed by a stop, after which nothing is forwarded or sent. */
  lemma RaisedTickStops(events: seq<Event>, m: Meets)
    requires
      var w := Run(INITIAL, events);
      w.live.Some? && !w.failing && Tick(w.live.value, m).raised
    ensures
      var w, after := Run(INITIAL, events), Run(INITIAL, events + [Ticks(m), StopAfterFailure]);
      && after.live.Some? && after.live.value.halted && !after.live.value.enabled && !after.failing
      && after.sent == w.sent + Tick(w.live.value, m).patches
      && after.live.value.reason == "CONTROL_API_UNAVAILABLE"
  {
    hide Run, Tick;
    var w := Run(INITIAL, events);
    RunKeepsSafe(INITIAL, events);
    RunsOn(events, [Ticks(m), StopAfterFailure]);
    ThreeSteps(w, Ticks(m), StopAfterFailure, Crash);
    HaltedTicks(w.live.value, m);
    TickHasFacts(w.live.value, m);
  }

  /** What a start leaves. */
  lemma BootsReady(w: World, boot: Event)
    requires boot.Boot?
    ensures
      var next := Step(w, boot);
      && next.row == w.row && next.sent == [] && !next.failing && next.live.Some?
      && var g := next.live.value;
         && !g.halted && !g.enabled && g.lease.None? && g.highwater == w.row && g.config == boot.config
         && g.inputId == "" && g.lastBytes == 0 && !g.twitchDisabled
         && g.lastWall == boot.wall && g.lastElapsed == boot.elapsed
         && g.grantDeadline - boot.elapsed == boot.config.grant.expiresAt - boot.wall
  {
  }

  // ----- Exactly what one tick does, on what it meets

  /** Wall time has not gone back, and moved in step with boottime. */
  predicate ClocksGoOn(g: Instance, m: Meets) {
    && g.lastWall <= m.wall && m.now - g.lastElapsed - 2.0 <= m.wall - g.lastWall <= m.now - g.lastElapsed + 2.0
  }

  /** The process runs, the clocks go on in step, and the grant and a held lease are running. */
  predicate Timely(g: Instance, m: Meets) {
    && !m.exited && ClocksGoOn(g, m)
    && (g.config.continuous || (m.now < g.grantDeadline && m.wall < g.config.grant.expiresAt))
    && (g.lease.Some? ==> Authorises(g.lease.value, m.leaseWall, m.now))
  }

  predicate Told(m: Meets) {
    m.online.Answer? && (m.online.value ==> m.publisher.Answer?)
  }

  function Publisher(m: Meets): Option<Connection> {
    if m.online == Answer(true) && m.publisher.Answer? then m.publisher.value else None
  }

  /** Another connection than the pinned one publishes. */
  predicate Replaced(g: Instance, m: Meets) {
    g.inputId != "" && Publisher(m).Some? && Publisher(m).value.id != g.inputId
  }

  predicate Grows(g: Instance, m: Meets) {
    Publisher(m).Some? && g.lastBytes < Publisher(m).value.inboundBytes
  }

  function Bytes(g: Instance, m: Meets): int {
    if Grows(g, m) then Publisher(m).value.inboundBytes else g.lastBytes
  }

  function LastGrowth(g: Instance, m: Meets): real {
    if Grows(g, m) then m.now else g.lastProgress
  }

  /** While forwarding: the input is gone, or has not grown for more than 4 s. */
  predicate Stale(g: Instance, m: Meets) {
    g.enabled && (m.online != Answer(true) || m.now > LastGrowth(g, m) + 4.0)
  }

  /** While not forwarding: a lease is held, and the input grew less than 2 s ago. */
  predicate Ripe(g: Instance, m: Meets) {
    && !g.enabled && g.lease.Some? && m.online == Answer(true)
    && Bytes(g, m) > 0 && m.now < LastGrowth(g, m) + 2.0
  }

  /** The lease has run out between its check and the request to forward. */
  predicate TooLate(g: Instance, m: Meets) {
    Ripe(g, m) && !Authorises(g.lease.value, m.forwardWall, m.forwardNow)
  }

  predicate Enables(g: Instance, m: Meets) {
    Timely(g, m) && Told(m) && !Replaced(g, m) && Ripe(g, m) && !TooLate(g, m)
  }

  /** The tick gets to the destinations: it forwards on, or has just begun to. */
  predicate Watches(g: Instance, m: Meets) {
    if g.enabled then Timely(g, m) && Told(m) && !Replaced(g, m) && !Stale(g, m)
    else Enables(g, m) && m.enable.Answer?
  }

  /** When this instance first asked to forward. */
  function Since(g: Instance, m: Meets): real {
    if g.enabled && g.firstAttempt.Some? then g.firstAttempt.value else m.stamp
  }

  /** The destinations are listed, well placed and readable. */
  predicate Lists(m: Meets) {
    m.destinations.Answer? && !Misbound(m.destinations.value) && m.readable
  }

  predicate LosesYouTube(g: Instance, m: Meets) {
    Watches(g, m) && Lists(m) && Lost(m.destinations.value, 1, m.youtubeNow - Since(g, m))
  }

  predicate DisablesTwitch(g: Instance, m: Meets) {
    && Watches(g, m) && Lists(m) && !LosesYouTube(g, m)
    && !g.twitchDisabled && Lost(m.destinations.value, 2, m.twitchNow - Since(g, m))
  }

  predicate Stops(g: Instance, m: Meets) {
    || !Timely(g, m)
    || (Told(m) && (Replaced(g, m) || Stale(g, m) || TooLate(g, m)))
    || (Watches(g, m) && m.destinations.Answer? && Misbound(m.destinations.value))
    || LosesYouTube(g, m)
  }

  /** The reason that a stop gives. */
  function Why(g: Instance, m: Meets): string {
    var late := !g.config.continuous && m.now >= g.grantDeadline;
    var over := !g.config.continuous && m.wall >= g.config.grant.expiresAt;
    if LosesYouTube(g, m) then "YOUTUBE_FORWARD_FAILED"
    else if Watches(g, m) then "FORWARD_PROVIDER_BINDING_INVALID"
    else if Timely(g, m) && Replaced(g, m) then "INPUT_INSTANCE_CHANGED"
    else if Timely(g, m) && Stale(g, m) then "INPUT_STALE"
    else if Timely(g, m) then "LEASE_EXPIRED_BEFORE_FORWARD"
    else if m.exited then "MEDIAMTX_EXITED"
    else if !ClocksGoOn(g, m) then "RELAY_CLOCK_CHANGED"
    else if late then "OPERATOR_GRANT_ELAPSED_EXPIRED"
    else if over then "OPERATOR_GRANT_EXPIRED"
    else "LEASE_EXPIRED"
  }

  /** The program could not ask for, or could not read, what it needed. */
  predicate Raises(g: Instance, m: Meets) {
    || (Timely(g, m) && !Told(m))
    || (Enables(g, m) && m.enable.Raised?)
    || (Watches(g, m) && (m.destinations.Raised? || (!Misbound(m.destinations.value) && !m.readable)))
    || (DisablesTwitch(g, m) && m.disable.Raised?)
  }

  /** Everything a tick of a running instance does. */
  predicate Does(g: Instance, m: Meets, o: Outcome) {
    && (o.g.halted <==> Stops(g, m)) && (o.raised <==> Raises(g, m))
    && o.patches == (if Enables(g, m) then [Enable] else []) + (if DisablesTwitch(g, m) then [DisableTwitch] else [])
    && (o.g.enabled <==> !Stops(g, m) && (g.enabled || Watches(g, m)))
    && (o.g.twitchDisabled <==> g.twitchDisabled || (DisablesTwitch(g, m) && m.disable.Answer?))
    && o.g.reason == (if Stops(g, m) then Why(g, m) else if !g.enabled && Watches(g, m) then "FORWARDING" else g.reason)
    && (!Stops(g, m) ==>
          && o.g.lastWall == m.wall && o.g.lastElapsed == m.now
          && o.g.firstAttempt == (if Watches(g, m) then Some(Since(g, m)) else g.firstAttempt)
          && (Told(m) ==>
                && o.g.lastBytes == Bytes(g, m) && o.g.lastProgress == LastGrowth(g, m)
                && o.g.inputId == if Publisher(m).Some? then Publisher(m).value.id else g.inputId))
  }

  /** In any run a tick of an instance that has not halted does exactly this. */
  lemma TickDoesExactly(events: seq<Event>, m: Meets)
    requires var w := Run(INITIAL, events); w.live.Some? && !w.failing && !w.live.value.halted
    ensures Does(Run(INITIAL, events).live.value, m, Tick(Run(INITIAL, events).live.value, m))
  {
    hide Tick, Run, Ledger, Holds, Does;
    RunKeepsSafe(INITIAL, events);
    RunningTick(Run(INITIAL, events).live.value, m);
  }

  lemma RunningTick(g: Instance, m: Meets)
    requires !g.halted && (g.enabled ==> g.firstAttempt.Some?)
    ensures Does(g, m, Tick(g, m))
  {
    hide ReadInput, Lost, Misbound;
    if Timely(g, m) {
      var timed := g.(lastWall := m.wall, lastElapsed := m.now);
      assert Tick(g, m) == ReadInput(timed, m);
      ReadingTick(timed, g, m);
    }
  }

  lemma ReadingTick(timed: Instance, g: Instance, m: Meets)
    requires timed == g.(lastWall := m.wall, lastElapsed := m.now) && Timely(g, m)
    requires !g.halted && (g.enabled ==> g.firstAttempt.Some?)
    ensures Does(g, m, ReadInput(timed, m))
  {
    hide Gate, Lost, Misbound, Timely;
    if Told(m) && !Replaced(g, m) {
      var read := timed.(inputId := if Publisher(m).Some? then Publisher(m).value.id else g.inputId,
                         lastBytes := Bytes(g, m), lastProgress := LastGrowth(g, m));
      assert ReadInput(timed, m) == Gate(read, m);
      GatedTick(read, g, m);
    }
  }

  lemma GatedTick(read: Instance, g: Instance, m: Meets)
    requires Told(m) && !Replaced(g, m) && Timely(g, m) && !g.halted && (g.enabled ==> g.firstAttempt.Some?)
    requires ReadFrom(read, g, m)
    ensures Does(g, m, Gate(read, m))
  {
    hide Gate, Watches, Stops, Raises;
    if g.enabled {
      ForwardingTick(read, g, m);
    } else {
      WaitingTick(read, g, m);
    }
  }

  /** The instance once the input has been read. */
  predicate ReadFrom(read: Instance, g: Instance, m: Meets) {
    read == g.(lastWall := m.wall, lastElapsed := m.now, lastBytes := Bytes(g, m), lastProgress := LastGrowth(g, m),
               inputId := if Publisher(m).Some? then Publisher(m).value.id else g.inputId)
  }

  lemma ForwardingTick(read: Instance, g: Instance, m: Meets)
    requires Told(m) && !Replaced(g, m) && Timely(g, m) && !g.halted && g.enabled && g.firstAttempt.Some?
    requires ReadFrom(read, g, m)
    ensures Does(g, m, Gate(read, m))
  {
    hide Watch, Lost, Misbound, Timely, Replaced, Grows;
    WatchedTick(read, m);
  }

  lemma WaitingTick(read: Instance, g: Instance, m: Meets)
    requires Told(m) && !Replaced(g, m) && Timely(g, m) && !g.halted && !g.enabled
    requires ReadFrom(read, g, m)
    ensures Does(g, m, Gate(read, m))
  {
    hide Watch, Lost, Misbound, Timely, Replaced, Grows;
    WatchedTick(read, m);
    WatchedTick(read.(enabled := true, reason := "FORWARDING", firstAttempt := Some(m.stamp)), m);
  }

  lemma WatchedTick(g: Instance, m: Meets)
    requires !g.halted && (g.enabled ==> g.firstAttempt.Some?)
    ensures
      var o := Watch(g, m);
      if !g.enabled then o == Outcome(g, [], false)
      else
        var since := g.firstAttempt.value;
        if !Lists(m) then
          && o.patches == [] && (o.raised <==> m.destinations.Raised? || !Misbound(m.destinations.value))
          && (o.raised ==> o.g == g) && (!o.raised ==> o.g == Stopped(g, "FORWARD_PROVIDER_BINDING_INVALID"))
        else if Lost(m.destinations.value, 1, m.youtubeNow - since) then
          o == Outcome(Stopped(g, "YOUTUBE_FORWARD_FAILED"), [], false)
        else if !g.twitchDisabled && Lost(m.destinations.value, 2, m.twitchNow - since) then
          o == Outcome(g.(twitchDisabled := m.disable.Answer?), [DisableTwitch], m.disable.Raised?)
        else o == Outcome(g, [], false)
  {
    hide Lost, Misbound, Failing, Bound;
    if m.destinations.Answer? && g.firstAttempt.Some? {
      FailingIsLost(m.destinations.value, 1, m.youtubeNow - g.firstAttempt.value);
      FailingIsLost(m.destinations.value, 2, m.twitchNow - g.firstAttempt.value);
    }
  }

  /** At most one enabling and one Twitch-disabling PATCH, in that order, over the life of an instance. */
  lemma PatchesAreBounded(events: seq<Event>)
    ensures Run(INITIAL, events).sent in {[], [Enable], [Enable, DisableTwitch]}
  {
    RunKeepsSafe(INITIAL, events);
    PrefixesOfFull(Run(INITIAL, events).sent);
  }

  /** In finite mode nothing is valid once the operator grant ends, whichever lease an instance holds. */
  lemma FiniteGrantEnds(events: seq<Event>, wall: real, elapsed: real)
    requires var w := Run(INITIAL, events);
      w.live.Some? && w.live.value.lease.Some? && !w.live.value.config.continuous
      && wall >= w.live.value.config.grant.expiresAt
    ensures !Run(INITIAL, events).live.value.lease.value.Valid(wall, elapsed)
  {
    hide Run, Ordered;
    RunKeepsSafe(INITIAL, events);
    var w := Run(INITIAL, events);
    assert Justified(w.used[|w.used| - 1]);
  }
}
