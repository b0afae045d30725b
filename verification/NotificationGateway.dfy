/** The notification gateway (ops/scripts/stream_v3_notification_gateway.py): one bounded, durable receipt table
    in front of a provider whose outcome may stay unknown.
 */
module NotificationGateway {
  import opened Options

  datatype Text = Text(text: string) | NotText

  /** A decoded request: three fields, or anything else. */
  datatype Value = Fields(route: Text, content: Text, username: Text) | Misshapen

  /** The digest that keys a receipt is taken to be injective, so the message is its own key. */
  datatype Message = Message(route: string, content: string, username: string)

  datatype Status = SENDING | UNKNOWN | DELIVERED | RETRY | REJECTED

  datatype Receipt = Receipt(route: string, status: Status, code: int, boot: nat, mono: real, created: real)

  type Table = map<Message, Receipt>

  /** A delivery that is never repeated: its outcome is not known. */
  predicate Held(s: Status) {
    s == SENDING || s == UNKNOWN
  }

  datatype Answer = Reply(delivered: bool, route: string, status: string, code: int) | Invalid

  function StatusName(s: Status): string {
    match s
    case SENDING => "sending"
    case UNKNOWN => "unknown"
    case DELIVERED => "delivered"
    case RETRY => "retry"
    case REJECTED => "rejected"
  }

  function Result(route: string, s: Status, code: int): Answer {
    Reply(s == DELIVERED, route, StatusName(s), code)
  }

  function Capacity(route: string): Answer {
    Reply(false, route, "capacity", 0)
  }

  const LIMIT := 10000
  const REPEAT_AFTER := 180.0
  const KEEP := 604800.0

  predicate WellFormed(v: Value) {
    && v.Fields? && v.route.Text? && v.content.Text? && v.username.Text?
    && (v.route.text == "slack" || v.route.text == "discord")
    && 0 < |v.content.text| <= 12000 && |v.username.text| <= 128
  }

  function MessageOf(v: Value): Message
    requires WellFormed(v)
  {
    Message(v.route.text, v.content.text, v.username.text)
  }

  /** What the provider reported: one of the four words, another word, or nothing because sending raised. */
  datatype Report = Reported(status: Status, code: int) | Unrecognised(code: int) | SendRaised

  /** Where one delivery ends: before its first transaction, after it, after the call, or normally. */
  datatype Fate = DiesBeforeReceipt | DiesBeforeCall | DiesAfterCall | Completes

  datatype Delivery = Delivery(value: Value, purgeWall: real, createdWall: real, report: Report, fate: Fate)

  // ----- One delivery

  predicate Expired(r: Receipt, wall: real) {
    !Held(r.status) && r.created < wall - KEEP
  }

  function Purge(table: Table, wall: real): Table {
    map m | m in table && !Expired(table[m], wall) :: table[m]
  }

  function Outcome(report: Report): Status {
    if report.Reported? && report.status != SENDING then report.status else UNKNOWN
  }

  function ReportCode(report: Report): int
    requires !report.SendRaised?
  {
    report.code
  }

  /** What the history keeps of a call and of a purge. */
  datatype Entry =
    | Called(message: Message, boot: nat, mono: real, created: real, outcome: Status)
    | Purged(removed: set<Message>, boot: nat, mono: real, wall: real)

  /** `answer` is None when the program died or raised before it could answer. */
  datatype Effect = Effect(table: Table, log: seq<Entry>, answer: Option<Answer>)

  function Deliver(table: Table, boot: nat, mono: real, d: Delivery): Effect {
    if !WellFormed(d.value) then Effect(table, [], Some(Invalid))
    else
      var m := MessageOf(d.value);
      if m in table && Held(table[m].status) then
        Effect(table, [], Some(Result(m.route, UNKNOWN, table[m].code)))
      else if m in table && table[m].status == DELIVERED && boot != table[m].boot then
        if d.fate == DiesBeforeReceipt then Effect(table, [], None)
        else Effect(table[m := table[m].(boot := boot, mono := mono)], [],
                    Some(Result(m.route, DELIVERED, table[m].code)))
      else if m in table && table[m].status == DELIVERED && mono - table[m].mono < REPEAT_AFTER then
        Effect(table, [], Some(Result(m.route, DELIVERED, table[m].code)))
      else if d.fate == DiesBeforeReceipt then Effect(table, [], None)
      else
        var kept := Purge(table, d.purgeWall);
        var purged := Purged(table.Keys - kept.Keys, boot, mono, d.purgeWall);
        if |kept| >= LIMIT && m !in table then Effect(kept, [purged], Some(Capacity(m.route)))
        else
          var sending := kept[m := Receipt(m.route, SENDING, 0, boot, mono, d.createdWall)];
          if d.fate == DiesBeforeCall then Effect(sending, [purged], None)
          else if d.fate == DiesAfterCall || d.report.SendRaised? then
            Effect(sending, [purged, Called(m, boot, mono, d.createdWall, SENDING)], None)
          else
            var status := Outcome(d.report);
            var code := ReportCode(d.report);
            Effect(sending[m := sending[m].(status := status, code := code)],
                   [purged, Called(m, boot, mono, d.createdWall, status)],
                   Some(Result(m.route, status, code)))
  }

  // ----- Runs

  /** `boot` numbers the boots, `mono` is the boottime clock of this one. */
  datatype World = World(boot: nat, mono: real, table: Table, log: seq<Entry>)

  const INITIAL := World(0, 0.0, map[], [])

  datatype Event = Delivers(delivery: Delivery) | Waits(seconds: real) | Reboots(uptime: real)

  function Step(w: World, e: Event): World {
    match e
    case Delivers(d) =>
      var effect := Deliver(w.table, w.boot, w.mono, d);
      w.(table := effect.table, log := w.log + effect.log)
    case Waits(seconds) => w.(mono := w.mono + if seconds < 0.0 then 0.0 else seconds)
    case Reboots(uptime) => w.(boot := w.boot + 1, mono := uptime)
  }

  function Run(w: World, events: seq<Event>): World
    decreases |events|
  {
    if events == [] then w else Run(Step(w, events[0]), events[1..])
  }

  // ----- The invariant

  predicate CallOf(entry: Entry, m: Message) {
    entry.Called? && entry.message == m
  }

  /** Between call `i` and position `end`, a purge within 180 s of the same boot read a wall time more than the
      keeping time past the creation of the call's receipt, and removed it. */
  ghost predicate PurgedEarly(log: seq<Entry>, i: int, end: int)
    requires 0 <= i < end <= |log| && log[i].Called?
  {
    exists k :: i < k < end && EarlyPurge(log[i], log[k])
  }

  predicate EarlyPurge(call: Entry, purge: Entry)
    requires call.Called?
  {
    && purge.Purged? && call.message in purge.removed
    && purge.boot == call.boot && purge.mono - call.mono < REPEAT_AFTER
    && call.created < purge.wall - KEEP
  }

  /** A delivered call is old enough to repeat, or its receipt was purged early. */
  ghost predicate Spent(log: seq<Entry>, i: int, end: int, mono: real)
    requires 0 <= i < end <= |log| && log[i].Called?
  {
    mono - log[i].mono >= REPEAT_AFTER || PurgedEarly(log, i, end)
  }

  /** The receipt of a past call still answers for it. */
  ghost predicate Answers(w: World, i: int)
    requires 0 <= i < |w.log| && w.log[i].Called?
  {
    var c := w.log[i];
    && (Held(c.outcome) ==> c.message in w.table && Held(w.table[c.message].status))
    && (c.outcome == DELIVERED && c.boot == w.boot ==>
          || Spent(w.log, i, |w.log|, w.mono)
          || (c.message in w.table && ReceiptOf(c, w.table[c.message])))
  }

  predicate ReceiptOf(c: Entry, r: Receipt)
    requires c.Called?
  {
    r.status == DELIVERED && r.boot == c.boot && r.mono == c.mono && r.created == c.created
  }

  /** Two calls for one message: the first one's outcome was known, and a delivered one was left alone for 180 s of
      the same boot unless its receipt was purged early between them. */
  ghost predicate Spaced(log: seq<Entry>, i: int, j: int)
    requires 0 <= i < j < |log|
  {
    log[i].Called? && log[j].Called? && log[i].message == log[j].message ==>
      && !Held(log[i].outcome)
      && (log[i].outcome == DELIVERED && log[i].boot == log[j].boot ==> Spent(log, i, j, log[j].mono))
  }

  ghost predicate Recorded(log: seq<Entry>, m: Message) {
    exists i :: 0 <= i < |log| && CallOf(log[i], m) && log[i].outcome == DELIVERED
  }

  ghost predicate Safe(w: World) {
    && |w.table| <= LIMIT
    && (forall i :: 0 <= i < |w.log| && w.log[i].Called? ==> Answers(w, i) && w.log[i].boot <= w.boot)
    && (forall i :: 0 <= i < |w.log| && w.log[i].Called? && w.log[i].boot == w.boot ==> w.log[i].mono <= w.mono)
    && (forall i, j :: 0 <= i < j < |w.log| ==> Spaced(w.log, i, j))
    && (forall m :: m in w.table && w.table[m].boot == w.boot ==> w.table[m].mono <= w.mono)
    && (forall m :: m in w.table && w.table[m].status == DELIVERED ==> Recorded(w.log, m))
    && (forall m :: m in w.table ==> w.table[m].boot <= w.boot)
  }

  // ----- Keeping it, transaction by transaction

  lemma PurgeShrinks(table: Table, wall: real)
    ensures Purge(table, wall).Keys <= table.Keys && |Purge(table, wall)| <= |table|
    ensures forall m :: m in table && m !in Purge(table, wall) ==> |Purge(table, wall)| < |table|
  {
    var kept := Purge(table, wall);
    SubsetCardinality(kept.Keys, table.Keys);
    forall m | m in table && m !in kept ensures |kept| < |table| {
      SubsetCardinality(kept.Keys, table.Keys - {m});
    }
  }

  lemma {:induction false} SubsetCardinality<T>(a: set<T>, b: set<T>)
    requires a <= b
    ensures |a| <= |b|
  {
    if a != {} {
      var x :| x in a;
      SubsetCardinality(a - {x}, b - {x});
    }
  }

  lemma PurgeKeepsSafe(w: World, wall: real)
    requires Safe(w)
    ensures
      var kept := Purge(w.table, wall);
      Safe(w.(table := kept, log := w.log + [Purged(w.table.Keys - kept.Keys, w.boot, w.mono, wall)]))
  {
    hide Recorded, Spaced;
    var kept := Purge(w.table, wall);
    var entry := Purged(w.table.Keys - kept.Keys, w.boot, w.mono, wall);
    var after := w.(table := kept, log := w.log + [entry]);
    PurgeShrinks(w.table, wall);
    forall i | 0 <= i < |after.log| && after.log[i].Called? ensures Answers(after, i) {
      PurgeAnswers(w, wall, i);
    }
    forall i, j | 0 <= i < j < |after.log| ensures Spaced(after.log, i, j) {
      SpacedLater(w.log, entry, i, j);
    }
    forall m | m in kept && kept[m].status == DELIVERED ensures Recorded(after.log, m) {
      RecordedLater(w.log, entry, m);
    }
  }

  lemma PurgeAnswers(w: World, wall: real, i: int)
    requires 0 <= i < |w.log| && w.log[i].Called? && Answers(w, i)
    ensures
      var kept := Purge(w.table, wall);
      Answers(w.(table := kept, log := w.log + [Purged(w.table.Keys - kept.Keys, w.boot, w.mono, wall)]), i)
  {
    var kept := Purge(w.table, wall);
    var entry := Purged(w.table.Keys - kept.Keys, w.boot, w.mono, wall);
    SpentLater(w.log, entry, i, w.mono, w.mono);
    if w.log[i].message in w.table && w.log[i].message !in kept && ReceiptOf(w.log[i], w.table[w.log[i].message])
      && w.log[i].boot == w.boot && w.mono - w.log[i].mono < REPEAT_AFTER {
      assert EarlyPurge(w.log[i], entry);
      EarlyPurgeAtEnd(w.log, entry, i);
    }
  }

  lemma EarlyPurgeAtEnd(log: seq<Entry>, entry: Entry, i: int)
    requires 0 <= i < |log| && log[i].Called? && EarlyPurge(log[i], entry)
    ensures PurgedEarly(log + [entry], i, |log| + 1)
  {
    assert (log + [entry])[|log|] == entry;
  }

  /** What is spent stays spent. */
  lemma SpentLater(log: seq<Entry>, entry: Entry, i: int, mono: real, later: real)
    requires 0 <= i < |log| && log[i].Called? && mono <= later
    ensures Spent(log, i, |log|, mono) ==> Spent(log + [entry], i, |log| + 1, later) && Spent(log, i, |log|, later)
    ensures forall j :: i < j <= |log| ==> PurgedEarly(log + [entry], i, j) == PurgedEarly(log, i, j)
  {
    var longer := log + [entry];
    assert forall k :: 0 <= k < |log| ==> longer[k] == log[k];
    if PurgedEarly(log, i, |log|) {
      var k :| i < k < |log| && EarlyPurge(log[i], log[k]);
      assert EarlyPurge(longer[i], longer[k]);
    }
    forall j | i < j <= |log| ensures PurgedEarly(longer, i, j) == PurgedEarly(log, i, j) {
      if PurgedEarly(log, i, j) {
        var k :| i < k < j && EarlyPurge(log[i], log[k]);
        assert EarlyPurge(longer[i], longer[k]);
      }
    }
  }

  lemma SpacedLater(log: seq<Entry>, entry: Entry, i: int, j: int)
    requires 0 <= i < j < |log| + 1
    requires j < |log| ==> Spaced(log, i, j)
    requires j == |log| && entry.Called? && log[i].Called? && entry.message == log[i].message ==>
      && !Held(log[i].outcome)
      && (log[i].outcome == DELIVERED && log[i].boot == entry.boot ==> Spent(log, i, |log|, entry.mono))
    ensures Spaced(log + [entry], i, j)
  {
    var longer := log + [entry];
    assert longer[i] == log[i] && (j < |log| ==> longer[j] == log[j]) && (j == |log| ==> longer[j] == entry);
    if log[i].Called? {
      SpentLater(log, entry, i, 0.0, 0.0);
    }
  }

  lemma RecordedLater(log: seq<Entry>, entry: Entry, m: Message)
    ensures Recorded(log, m) ==> Recorded(log + [entry], m)
    ensures CallOf(entry, m) && entry.outcome == DELIVERED ==> Recorded(log + [entry], m)
  {
    var longer := log + [entry];
    assert longer[|log|] == entry;
    if Recorded(log, m) {
      var i :| 0 <= i < |log| && CallOf(log[i], m) && log[i].outcome == DELIVERED;
      assert longer[i] == log[i];
    }
  }

  /** Every past call for the message is settled: a further call is justified. */
  ghost predicate Settled(w: World, m: Message) {
    forall i :: 0 <= i < |w.log| && CallOf(w.log[i], m) ==>
      && !Held(w.log[i].outcome)
      && (w.log[i].outcome == DELIVERED && w.log[i].boot == w.boot ==> Spent(w.log, i, |w.log|, w.mono))
  }

  predicate Free(w: World, m: Message) {
    m in w.table ==>
      && !Held(w.table[m].status)
      && (w.table[m].status == DELIVERED ==> w.table[m].boot == w.boot && w.mono - w.table[m].mono >= REPEAT_AFTER)
  }

  lemma FreeIsSettled(w: World, m: Message)
    requires Safe(w) && Free(w, m)
    ensures Settled(w, m)
  {
    hide PurgedEarly, Spaced, Recorded;
    forall i | 0 <= i < |w.log| && CallOf(w.log[i], m)
      ensures
        && !Held(w.log[i].outcome)
        && (w.log[i].outcome == DELIVERED && w.log[i].boot == w.boot ==> Spent(w.log, i, |w.log|, w.mono))
    {
      assert Answers(w, i);
    }
  }

  lemma ReserveKeepsSafe(w: World, m: Message, r: Receipt)
    requires Safe(w) && Settled(w, m)
    requires r.status == SENDING && r.boot == w.boot && r.mono == w.mono
    requires m in w.table || |w.table| < LIMIT
    ensures Safe(w.(table := w.table[m := r]))
  {
    hide Spent, Spaced, Recorded;
    var after := w.(table := w.table[m := r]);
    assert after.table.Keys == w.table.Keys + {m};
    forall i | 0 <= i < |after.log| && after.log[i].Called? ensures Answers(after, i) {
      assert Answers(w, i);
      if w.log[i].message == m {
        assert CallOf(w.log[i], m);
      }
    }
  }

  lemma CallKeepsSafe(w: World, m: Message, status: Status, code: int)
    requires Safe(w) && Settled(w, m)
    requires m in w.table && w.table[m].boot == w.boot && w.table[m].mono == w.mono
    ensures
      Safe(w.(table := w.table[m := w.table[m].(status := status, code := code)],
              log := w.log + [Called(m, w.boot, w.mono, w.table[m].created, status)]))
  {
    hide Spent, Spaced, Recorded;
    var entry := Called(m, w.boot, w.mono, w.table[m].created, status);
    var after := w.(table := w.table[m := w.table[m].(status := status, code := code)], log := w.log + [entry]);
    assert after.table.Keys == w.table.Keys;
    forall i | 0 <= i < |after.log| && after.log[i].Called?
      ensures Answers(after, i) && after.log[i].boot <= after.boot {
      if i < |w.log| {
        assert Answers(w, i);
        SpentLater(w.log, entry, i, w.mono, w.mono);
        if w.log[i].message == m {
          assert CallOf(w.log[i], m);
        }
      }
    }
    forall i, j | 0 <= i < j < |after.log| ensures Spaced(after.log, i, j) {
      if j == |w.log| && w.log[i].Called? && w.log[i].message == m {
        assert CallOf(w.log[i], m);
      }
      SpacedLater(w.log, entry, i, j);
    }
    forall k | k in after.table && after.table[k].status == DELIVERED ensures Recorded(after.log, k) {
      RecordedLater(w.log, entry, k);
    }
  }

  /** A receipt from an earlier boot is carried over to this one. */
  lemma RefreshKeepsSafe(w: World, m: Message)
    requires Safe(w) && m in w.table && w.table[m].status == DELIVERED && w.table[m].boot != w.boot
    ensures Safe(w.(table := w.table[m := w.table[m].(boot := w.boot, mono := w.mono)]))
  {
    hide Spent, Spaced, Recorded;
    var after := w.(table := w.table[m := w.table[m].(boot := w.boot, mono := w.mono)]);
    assert after.table.Keys == w.table.Keys;
    forall i | 0 <= i < |after.log| && after.log[i].Called? ensures Answers(after, i) {
      assert Answers(w, i);
    }
  }

  lemma DeliverKeepsSafe(w: World, d: Delivery)
    requires Safe(w)
    ensures Safe(Step(w, Delivers(d)))
  {
    hide Safe, Settled, Purge;
    var effect := Deliver(w.table, w.boot, w.mono, d);
    assert w.(log := w.log + []) == w by {
      assert w.log + [] == w.log;
    }
    if WellFormed(d.value) {
      var m := MessageOf(d.value);
      if effect.log == [] {
        if m in w.table && w.table[m].status == DELIVERED && w.table[m].boot != w.boot {
          RefreshKeepsSafe(w, m);
        }
      } else {
        SendKeepsSafe(w, d, m);
      }
    }
  }

  lemma SendKeepsSafe(w: World, d: Delivery, m: Message)
    requires Safe(w) && WellFormed(d.value) && m == MessageOf(d.value)
    requires Deliver(w.table, w.boot, w.mono, d).log != []
    ensures Safe(Step(w, Delivers(d)))
  {
    hide Safe, Settled;
    var kept := Purge(w.table, d.purgeWall);
    var purged := Purged(w.table.Keys - kept.Keys, w.boot, w.mono, d.purgeWall);
    var first := w.(table := kept, log := w.log + [purged]);
    PurgeKeepsSafe(w, d.purgeWall);
    if |kept| < LIMIT || m in w.table {
      PurgeShrinks(w.table, d.purgeWall);
      SizeOf(w);
      FreeIsSettled(first, m);
      var r := Receipt(m.route, SENDING, 0, w.boot, w.mono, d.createdWall);
      var second := first.(table := kept[m := r]);
      ReserveKeepsSafe(first, m, r);
      if d.fate != DiesBeforeCall {
        SettledByLog(first, second, m);
        CallKeepsSafe(second, m, SENDING, 0);
        assert second.table[m := second.table[m].(status := SENDING, code := 0)] == second.table;
        if d.fate == Completes && !d.report.SendRaised? {
          CallKeepsSafe(second, m, Outcome(d.report), ReportCode(d.report));
        }
        assert forall called :: w.log + [purged, called] == first.log + [called];
      }
    }
  }

  lemma SizeOf(w: World)
    requires Safe(w)
    ensures |w.table| <= LIMIT
  {
  }

  lemma SettledByLog(v: World, w: World, m: Message)
    requires Settled(v, m) && v.log == w.log && v.boot == w.boot && v.mono == w.mono
    ensures Settled(w, m)
  {
  }

  lemma ClockKeepsSafe(w: World, later: World)
    requires Safe(w) && later.table == w.table && later.log == w.log
    requires (later.boot == w.boot && later.mono >= w.mono) || later.boot == w.boot + 1
    ensures Safe(later)
  {
    hide Spaced, Recorded, PurgedEarly;
    forall i | 0 <= i < |later.log| && later.log[i].Called? ensures Answers(later, i) {
      assert Answers(w, i);
    }
  }

  lemma StepKeepsSafe(w: World, e: Event)
    requires Safe(w)
    ensures Safe(Step(w, e))
  {
    hide Safe, Deliver;
    match e
    case Delivers(d) => DeliverKeepsSafe(w, d);
    case Waits(_) => ClockKeepsSafe(w, Step(w, e));
    case Reboots(_) => ClockKeepsSafe(w, Step(w, e));
  }

  lemma {:induction false} RunKeepsSafe(w: World, events: seq<Event>)
    requires Safe(w)
    ensures Safe(Run(w, events))
    decreases |events|
  {
    hide Safe, Step;
    if events != [] {
      StepKeepsSafe(w, events[0]);
      RunKeepsSafe(Step(w, events[0]), events[1..]);
    }
  }

  // ----- What it means

  /** In every run with crashes: no call follows one of unknown outcome, and a call after a delivered one in the
      same boot comes at least 180 s later unless a purge less than 180 s after the delivered one read a wall time
      more than seven days past the creation of its receipt. */
  lemma CallsAreSpaced(events: seq<Event>, i: nat, j: nat)
    requires i < j < |Run(INITIAL, events).log|
    ensures
      var log := Run(INITIAL, events).log;
      log[i].Called? && log[j].Called? && log[i].message == log[j].message ==>
        && !Held(log[i].outcome)
        && (log[i].outcome == DELIVERED && log[i].boot == log[j].boot ==>
              log[j].mono - log[i].mono >= REPEAT_AFTER || PurgedEarly(log, i, j))
  {
    hide Run, PurgedEarly;
    RunKeepsSafe(INITIAL, events);
    assert Spaced(Run(INITIAL, events).log, i, j);
  }

  /** Less than 180 s of one boot after any delivered call, no purge reads a wall time more than seven days past the
      wall time at which the call's receipt was created. */
  predicate WallIsSteady(log: seq<Entry>) {
    forall i, k :: 0 <= i < k < |log| && SoonAfterDelivery(log[i], log[k]) ==> log[k].wall - KEEP <= log[i].created
  }

  predicate SoonAfterDelivery(call: Entry, purge: Entry) {
    && call.Called? && call.outcome == DELIVERED && purge.Purged?
    && purge.boot == call.boot && purge.mono - call.mono < REPEAT_AFTER
  }

  /** On such a wall clock deliveries of one message in one boot are always 180 s apart. */
  lemma SteadyWallSpacesCalls(events: seq<Event>, i: nat, j: nat)
    requires i < j < |Run(INITIAL, events).log| && WallIsSteady(Run(INITIAL, events).log)
    ensures
      var log := Run(INITIAL, events).log;
      log[i].Called? && log[j].Called? && log[i].message == log[j].message && log[i].outcome == DELIVERED
      && log[i].boot == log[j].boot ==>
        log[j].mono - log[i].mono >= REPEAT_AFTER
  {
    hide Run;
    CallsAreSpaced(events, i, j);
  }

  /** The table never exceeds its limit, even when the purge deletes the very receipt that is replaced. */
  lemma TableIsBounded(events: seq<Event>)
    ensures |Run(INITIAL, events).table| <= LIMIT
  {
    RunKeepsSafe(INITIAL, events);
  }

  /** Once a message is held, its receipt never changes again and it is never sent again. */
  lemma {:induction false} HeldForever(w: World, events: seq<Event>, m: Message)
    requires m in w.table && Held(w.table[m].status)
    ensures
      var after := Run(w, events);
      && m in after.table && after.table[m] == w.table[m]
      && w.log <= after.log
      && (forall i :: |w.log| <= i < |after.log| ==> !CallOf(after.log[i], m))
    decreases |events|
  {
    hide Step;
    if events != [] {
      HeldStays(w, events[0], m);
      HeldForever(Step(w, events[0]), events[1..], m);
    }
  }

  lemma HeldStays(w: World, e: Event, m: Message)
    requires m in w.table && Held(w.table[m].status)
    ensures
      var after := Step(w, e);
      && m in after.table && after.table[m] == w.table[m]
      && w.log <= after.log
      && (forall i :: |w.log| <= i < |after.log| ==> !CallOf(after.log[i], m))
  {
  }

  /** A delivery that answers "delivered" stands for a call that the provider reported as delivered. */
  lemma DeliveredWasSent(events: seq<Event>, d: Delivery)
    requires
      var w := Run(INITIAL, events);
      var answer := Deliver(w.table, w.boot, w.mono, d).answer;
      answer.Some? && answer.value.Reply? && answer.value.delivered
    ensures
      var w := Run(INITIAL, events);
      WellFormed(d.value) && Recorded(Step(w, Delivers(d)).log, MessageOf(d.value))
  {
    hide Run;
    var w := Run(INITIAL, events);
    RunKeepsSafe(INITIAL, events);
    DeliverKeepsSafe(w, d);
    var after := Step(w, Delivers(d));
    assert MessageOf(d.value) in after.table && after.table[MessageOf(d.value)].status == DELIVERED;
  }

  predicate Calls(log: seq<Entry>) {
    exists k :: 0 <= k < |log| && log[k].Called?
  }

  /** Exactly when a delivery calls the provider: a settled message, room after the purge, and no death before. */
  lemma CalledExactlyWhen(w: World, d: Delivery)
    ensures
      Calls(Deliver(w.table, w.boot, w.mono, d).log) <==>
        && WellFormed(d.value)
        && (MessageOf(d.value) in w.table ==>
              var r := w.table[MessageOf(d.value)];
              !Held(r.status) && (r.status == DELIVERED ==> r.boot == w.boot && w.mono - r.mono >= REPEAT_AFTER))
        && (MessageOf(d.value) in w.table || |Purge(w.table, d.purgeWall)| < LIMIT)
        && (d.fate == DiesAfterCall || d.fate == Completes)
  {
    hide Purge;
    var log := Deliver(w.table, w.boot, w.mono, d).log;
    if |log| == 2 {
      assert log[1].Called?;
    }
  }

  /** The delivery gets as far as its purge. */
  predicate ReachesPurge(w: World, d: Delivery) {
    && WellFormed(d.value) && Free(w, MessageOf(d.value)) && d.fate != DiesBeforeReceipt
  }

  /** The single step, for a delivery of any message: a receipt delivered less than 180 s ago in this boot, and after
      one more delivery a request for its message calls the provider exactly when that delivery's purge reads a wall
      time more than seven days past the receipt's creation, and there is room. */
  lemma RepeatsExactlyWhen(w: World, other: Delivery, again: Delivery, mono: real)
    requires WellFormed(again.value) && MessageOf(again.value) in w.table
    requires
      var r := w.table[MessageOf(again.value)];
      r.status == DELIVERED && r.boot == w.boot && w.mono - r.mono < REPEAT_AFTER && mono - r.mono < REPEAT_AFTER
    ensures
      var m := MessageOf(again.value);
      var next := Step(w, Delivers(other));
      Calls(Deliver(next.table, next.boot, mono, again).log) <==>
        && ReachesPurge(w, other) && w.table[m].created < other.purgeWall - KEEP
        && |Purge(next.table, again.purgeWall)| < LIMIT
        && (again.fate == DiesAfterCall || again.fate == Completes)
  {
    var m := MessageOf(again.value);
    var next := Step(w, Delivers(other));
    OtherRowsStay(w, other, m);
    CalledExactlyWhen(next.(mono := mono), again);
  }

  /** No reboot, and no delivery of the message itself. */
  predicate Spares(events: seq<Event>, m: Message) {
    forall k :: 0 <= k < |events| ==>
      && !events[k].Reboots?
      && (events[k].Delivers? && WellFormed(events[k].delivery.value) ==> MessageOf(events[k].delivery.value) != m)
  }

  /** Some delivery of the run reaches its purge with a wall time more than seven days past `created`. */
  predicate PurgesPast(w: World, events: seq<Event>, created: real)
    decreases |events|
  {
    events != [] &&
    ((events[0].Delivers? && ReachesPurge(w, events[0].delivery) && created < events[0].delivery.purgeWall - KEEP)
     || PurgesPast(Step(w, events[0]), events[1..], created))
  }

  /** A receipt delivered in this boot and still less than 180 s old after any number of other events: a request for
      its message calls the provider exactly when some delivery of those events reached its purge with a wall time
      more than seven days past the receipt's creation, and there is room. */
  lemma RepeatsAfterRunExactlyWhen(w: World, events: seq<Event>, again: Delivery)
    requires WellFormed(again.value) && MessageOf(again.value) in w.table && Spares(events, MessageOf(again.value))
    requires
      var r := w.table[MessageOf(again.value)];
      r.status == DELIVERED && r.boot == w.boot && Run(w, events).mono - r.mono < REPEAT_AFTER
    ensures
      var m := MessageOf(again.value);
      var after := Run(w, events);
      Calls(Deliver(after.table, after.boot, after.mono, again).log) <==>
        && PurgesPast(w, events, w.table[m].created)
        && |Purge(after.table, again.purgeWall)| < LIMIT
        && (again.fate == DiesAfterCall || again.fate == Completes)
  {
    hide Run, PurgesPast, Purge;
    RowThroughout(w, events, MessageOf(again.value));
    CalledExactlyWhen(Run(w, events), again);
  }

  /** Whatever else happens in a boot, a settled receipt stays as it is unless a purge reads a wall time more than
      seven days past its creation. */
  lemma {:induction false} RowThroughout(w: World, events: seq<Event>, m: Message)
    requires m in w.table && Spares(events, m) && !Held(w.table[m].status)
    ensures
      var after := Run(w, events);
      && after.boot == w.boot
      && (m in after.table <==> !PurgesPast(w, events, w.table[m].created))
      && (m in after.table ==> after.table[m] == w.table[m])
    decreases |events|
  {
    hide Deliver, ReachesPurge;
    if events != [] {
      var next := Step(w, events[0]);
      ClockStep(w, events[0]);
      if events[0].Delivers? {
        OtherRowsExactly(w, events[0].delivery, m);
      }
      if m in next.table {
        RowThroughout(next, events[1..], m);
      } else {
        AbsentStays(next, events[1..], m);
      }
    }
  }

  /** What a delivery does to the receipt of another message: a purge removes it when it is settled and more than seven
      days old, and nothing else touches it. */
  lemma OtherRowsExactly(w: World, d: Delivery, m: Message)
    requires WellFormed(d.value) ==> MessageOf(d.value) != m
    ensures
      var next := Step(w, Delivers(d));
      && (m in next.table <==>
            m in w.table
            && !(ReachesPurge(w, d) && w.table[m].status !in {SENDING, UNKNOWN}
                 && w.table[m].created < d.purgeWall - KEEP))
      && (m in next.table ==> next.table[m] == w.table[m])
  {
  }

  lemma ClockStep(w: World, e: Event)
    requires !e.Reboots?
    ensures Step(w, e).boot == w.boot && Step(w, e).mono >= w.mono
    ensures e.Waits? ==> Step(w, e).table == w.table && (e.seconds >= 0.0 ==> Step(w, e).mono == w.mono + e.seconds)
  {
  }

  lemma {:induction false} ClockOnlyGrows(w: World, events: seq<Event>)
    requires forall k :: 0 <= k < |events| ==> !events[k].Reboots?
    ensures Run(w, events).boot == w.boot && Run(w, events).mono >= w.mono
    decreases |events|
  {
    hide Deliver;
    if events != [] {
      ClockStep(w, events[0]);
      ClockOnlyGrows(Step(w, events[0]), events[1..]);
    }
  }

  lemma {:induction false} AbsentStays(w: World, events: seq<Event>, m: Message)
    requires m !in w.table && Spares(events, m)
    ensures m !in Run(w, events).table && Run(w, events).boot == w.boot
    decreases |events|
  {
    if events != [] {
      ClockStep(w, events[0]);
      AbsentStays(Step(w, events[0]), events[1..], m);
    }
  }

  /** What a delivery does to the receipt of another message, or to a fresh one of its own. */
  lemma OtherRowsStay(w: World, d: Delivery, m: Message)
    requires m in w.table && w.table[m].status == DELIVERED && w.table[m].boot == w.boot
    requires w.mono - w.table[m].mono < REPEAT_AFTER
    ensures
      var next := Step(w, Delivers(d));
      && next.boot == w.boot
      && (m in next.table <==> !(ReachesPurge(w, d) && w.table[m].created < d.purgeWall - KEEP))
      && (m in next.table ==> next.table[m] == w.table[m])
  {
  }

  // ----- After a reboot

  lemma {:induction false} RunJoins(w: World, first: seq<Event>, second: seq<Event>)
    ensures Run(w, first + second) == Run(Run(w, first), second)
    decreases |first|
  {
    hide Step;
    if first == [] {
      assert first + second == second;
    } else {
      assert (first + second)[0] == first[0] && (first + second)[1..] == first[1..] + second;
      RunJoins(Step(w, first[0]), first[1..], second);
    }
  }

  /** A message delivered before a reboot, with no request for it since and its receipt still there. */
  ghost predicate Remembered(before: seq<Event>, uptime: real, since: seq<Event>, m: Message) {
    var earlier := Run(INITIAL, before);
    && m in earlier.table && earlier.table[m].status == DELIVERED
    && Spares(since, m) && !PurgesPast(Step(earlier, Reboots(uptime)), since, earlier.table[m].created)
  }

  /** The first completed request after a reboot answers "delivered" without a call, and starts the 180 s afresh: a
      later one of the same boot, with no request for the message and no removing purge between, calls the provider
      exactly when at least 180 s have passed since the first, and the program lives that long. */
  lemma RebootRebinds(before: seq<Event>, uptime: real, since: seq<Event>, first: Delivery, between: seq<Event>,
                      again: Delivery)
    requires WellFormed(first.value) && WellFormed(again.value) && MessageOf(again.value) == MessageOf(first.value)
    requires Remembered(before, uptime, since, MessageOf(first.value)) && first.fate != DiesBeforeReceipt
    requires Spares(between, MessageOf(first.value))
    requires
      var w := Run(INITIAL, before + [Reboots(uptime)] + since);
      !PurgesPast(Step(w, Delivers(first)), between, Run(INITIAL, before).table[MessageOf(first.value)].created)
    ensures
      var m, code := MessageOf(first.value), Run(INITIAL, before).table[MessageOf(first.value)].code;
      var w := Run(INITIAL, before + [Reboots(uptime)] + since);
      var later := Run(w, [Delivers(first)] + between);
      var effect := Deliver(later.table, later.boot, later.mono, again);
      && Deliver(w.table, w.boot, w.mono, first).log == []
      && Deliver(w.table, w.boot, w.mono, first).answer == Some(Reply(true, m.route, "delivered", code))
      && (Calls(effect.log) <==>
            later.mono - w.mono >= REPEAT_AFTER && (again.fate == DiesAfterCall || again.fate == Completes))
      && (later.mono - w.mono < REPEAT_AFTER ==>
            effect.answer == Some(Reply(true, m.route, "delivered", code)) && effect.log == [])
  {
    hide Run, PurgesPast, Purge;
    var m := MessageOf(first.value);
    var rebooted := Step(Run(INITIAL, before), Reboots(uptime));
    var w := Run(INITIAL, before + [Reboots(uptime)] + since);
    RunKeepsSafe(INITIAL, before);
    RunJoins(INITIAL, before + [Reboots(uptime)], since);
    RunJoins(INITIAL, before, [Reboots(uptime)]);
    OneEvent(Run(INITIAL, before), Reboots(uptime));
    RowThroughout(rebooted, since, m);
    var next := Step(w, Delivers(first));
    RunJoins(w, [Delivers(first)], between);
    OneEvent(w, Delivers(first));
    RowThroughout(next, between, m);
    CalledExactlyWhen(Run(w, [Delivers(first)] + between), again);
  }

  lemma OneEvent(w: World, e: Event)
    ensures Run(w, [e]) == Step(w, e)
  {
    hide Step;
    assert Run(Step(w, e), []) == Step(w, e);
  }

  // ----- What an answer says

  /** The request cannot be answered from its receipt alone. */
  predicate Transacts(w: World, m: Message) {
    m in w.table ==>
      && w.table[m].status !in {SENDING, UNKNOWN}
      && !(w.table[m].status == DELIVERED && w.table[m].boot == w.boot && w.mono - w.table[m].mono < REPEAT_AFTER)
  }

  predicate HasRoom(w: World, d: Delivery)
    requires WellFormed(d.value)
  {
    MessageOf(d.value) in w.table || |Purge(w.table, d.purgeWall)| < LIMIT
  }

  /** Three texts: one of the two routes, a content of 1 to 12000 characters, a name of at most 128. */
  ghost predicate IsRequest(v: Value) {
    exists route, content, username ::
      && v == Fields(Text(route), Text(content), Text(username))
      && route in {"slack", "discord"} && content != "" && |content| <= 12000 && |username| <= 128
  }

  lemma RequestIsWellFormed(v: Value)
    ensures IsRequest(v) <==> WellFormed(v)
  {
    if WellFormed(v) {
      assert v == Fields(Text(v.route.text), Text(v.content.text), Text(v.username.text));
    }
  }

  /** Exactly what is answered: nothing when the program dies on the way, "capacity" when a new message finds the table
      full, and otherwise what the receipt says then, an unknown outcome being told as such. */
  lemma AnswersTellReceipt(w: World, d: Delivery)
    ensures
      var effect := Deliver(w.table, w.boot, w.mono, d);
      && (effect.answer == Some(Invalid) <==> !IsRequest(d.value))
      && (WellFormed(d.value) ==>
            var m := MessageOf(d.value);
            && (effect.answer == None <==>
                  Transacts(w, m)
                  && (d.fate == DiesBeforeReceipt
                      || (ReachesPurge(w, d) && HasRoom(w, d) && (d.fate != Completes || d.report.SendRaised?))))
            && (effect.answer == Some(Reply(false, m.route, "capacity", 0)) <==> ReachesPurge(w, d) && !HasRoom(w, d))
            && (effect.answer.Some? && (ReachesPurge(w, d) ==> HasRoom(w, d)) ==>
                  && m in effect.table
                  && var r := effect.table[m];
                     effect.answer.value ==
                       Reply(r.status == DELIVERED, m.route,
                             if r.status == DELIVERED then "delivered" else if r.status == RETRY then "retry"
                             else if r.status == REJECTED then "rejected" else "unknown", r.code)))
  {
    hide Purge, IsRequest;
    RequestIsWellFormed(d.value);
  }

  /** What a delivery that gets past its purge leaves: its receipt as reserved while the outcome is open, and as the
      provider reported it once the call completed; each call is logged with the receipt that stands for it. */
  lemma ReceiptRecordsCall(w: World, d: Delivery)
    requires ReachesPurge(w, d) && HasRoom(w, d)
    ensures
      var m, effect := MessageOf(d.value), Deliver(w.table, w.boot, w.mono, d);
      && m in effect.table
      && var r := effect.table[m];
         && r == Receipt(m.route, r.status, r.code, w.boot, w.mono, d.createdWall)
         && (d.fate != Completes || d.report.SendRaised? ==> r.status == SENDING && r.code == 0)
         && (d.fate == Completes && !d.report.SendRaised? ==>
               && r.code == d.report.code
               && r.status == if d.report.Reported? && d.report.status != SENDING then d.report.status else UNKNOWN)
         && |effect.log| == (if d.fate == DiesBeforeCall then 1 else 2)
         && effect.log[0].Purged? && effect.log[0].boot == w.boot && effect.log[0].mono == w.mono
         && effect.log[0].wall == d.purgeWall
         && (d.fate != DiesBeforeCall ==> effect.log[1] == Called(m, r.boot, r.mono, r.created, r.status))
  {
    hide Purge;
  }

  /** The clause about the purge is needed: a wall clock that steps seven days lets another message's purge
      remove a fresh receipt, and the same message is called twice without any boottime between. */
  lemma PurgeAllowsRepeat()
    ensures
      var log := Run(INITIAL, [DeliversAt("a", 0.0), DeliversAt("b", 604801.0), DeliversAt("a", 604801.0)]).log;
      |log| == 6 && log[1] == Called(Message("slack", "a", "u"), 0, 0.0, 0.0, DELIVERED)
      && log[5] == Called(Message("slack", "a", "u"), 0, 0.0, 604801.0, DELIVERED)
  {
    hide Deliver;
    var a := Message("slack", "a", "u");
    var b := Message("slack", "b", "u");
    var e0 := DeliversAt("a", 0.0);
    var e1 := DeliversAt("b", 604801.0);
    var e2 := DeliversAt("a", 604801.0);
    var w1, w2, w3 := Step(INITIAL, e0), Step(Step(INITIAL, e0), e1), Step(Step(Step(INITIAL, e0), e1), e2);
    assert Purge(map[], 0.0) == map[];
    DeliversNew(INITIAL, "a", 0.0);
    assert w1.table == map[a := Receipt("slack", DELIVERED, 200, 0, 0.0, 0.0)];
    assert Purge(w1.table, 604801.0) == map[];
    DeliversNew(w1, "b", 604801.0);
    assert w2.table == map[b := Receipt("slack", DELIVERED, 200, 0, 0.0, 604801.0)];
    DeliversNew(w2, "a", 604801.0);
    assert [e0, e1, e2][1..] == [e1, e2] && [e1, e2][1..] == [e2] && [e2][1..] == [];
    assert Run(w2, [e2]) == w3;
    assert Run(w1, [e1, e2]) == w3;
    assert Run(INITIAL, [e0, e1, e2]) == w3;
  }

  function DeliversAt(content: string, wall: real): Event {
    Delivers(Delivery(Fields(Text("slack"), Text(content), Text("u")), wall, wall, Reported(DELIVERED, 200), Completes))
  }

  lemma DeliversNew(w: World, content: string, wall: real)
    requires 0 < |content| <= 12000 && Message("slack", content, "u") !in w.table && |w.table| < LIMIT
    ensures
      var m := Message("slack", content, "u");
      var kept := Purge(w.table, wall);
      Step(w, DeliversAt(content, wall)) ==
        w.(table := kept[m := Receipt("slack", DELIVERED, 200, w.boot, w.mono, wall)],
           log := w.log + [Purged(w.table.Keys - kept.Keys, w.boot, w.mono, wall),
                           Called(m, w.boot, w.mono, wall, DELIVERED)])
  {
    hide Purge;
    PurgeShrinks(w.table, wall);
  }

  // ----- The program

  class Gateway {
    var receipts: Table
    ghost var log: seq<Entry>

    constructor ()
      ensures receipts == map[] && log == []
    {
      receipts, log := map[], [];
    }

    /** Purges what has expired and takes the receipt before the call; false when there is no room. */
    method Reserve(m: Message, known: bool, boot: nat, mono: real, d: Delivery) returns (room: bool)
      modifies this
      ensures
        var kept := Purge(old(receipts), d.purgeWall);
        && room == (|kept| < LIMIT || known)
        && receipts == (if room then kept[m := Receipt(m.route, SENDING, 0, boot, mono, d.createdWall)] else kept)
        && log == old(log) + [Purged(old(receipts).Keys - kept.Keys, boot, mono, d.purgeWall)]
    {
      log := log + [Purged(receipts.Keys - Purge(receipts, d.purgeWall).Keys, boot, mono, d.purgeWall)];
      receipts := map k | k in receipts && !Expired(receipts[k], d.purgeWall) :: receipts[k];
      if |receipts| >= LIMIT && !known {
        return false;
      }
      receipts := receipts[m := Receipt(m.route, SENDING, 0, boot, mono, d.createdWall)];
      room := true;
    }

    method DeliverOnce(boot: nat, mono: real, d: Delivery) returns (answer: Option<Answer>)
      modifies this
      ensures
        var effect := Deliver(old(receipts), boot, mono, d);
        receipts == effect.table && log == old(log) + effect.log && answer == effect.answer
    {
      hide Purge;
      if !WellFormed(d.value) {
        return Some(Invalid);
      }
      var m := MessageOf(d.value);
      var known := m in receipts;
      if known {
        var row := receipts[m];
        if row.status == SENDING || row.status == UNKNOWN {
          return Some(Result(m.route, UNKNOWN, row.code));
        }
        if row.status == DELIVERED {
          if boot != row.boot {
            if d.fate == DiesBeforeReceipt {
              return None;
            }
            receipts := receipts[m := row.(boot := boot, mono := mono)];
            return Some(Result(m.route, DELIVERED, row.code));
          }
          if mono - row.mono < REPEAT_AFTER {
            return Some(Result(m.route, DELIVERED, row.code));
          }
        }
      }
      if d.fate == DiesBeforeReceipt {
        return None;
      }
      var room := Reserve(m, known, boot, mono, d);
      if !room {
        return Some(Capacity(m.route));
      }
      if d.fate == DiesBeforeCall {
        return None;
      }
      if d.fate == DiesAfterCall || d.report.SendRaised? {
        log := log + [Called(m, boot, mono, d.createdWall, SENDING)];
        return None;
      }
      var status := if d.report.Reported? && d.report.status != SENDING then d.report.status else UNKNOWN;
      log := log + [Called(m, boot, mono, d.createdWall, status)];
      receipts := receipts[m := receipts[m].(status := status, code := d.report.code)];
      return Some(Result(m.route, status, d.report.code));
    }
  }
}
