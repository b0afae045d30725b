/** The back-filled window metrics (ops/scripts/backfill_prometheus_stream_v2.py): bisected slices and pruned deques
    against filtering the history to the closed window.
 */
module WindowCounters {
  import opened Options

  datatype Event = Event(ts: int, kind: string, mbps: Option<real>, healthy: bool, warn: bool)

  const HOUR := 3600
  const DAY := 86400

  predicate Ordered(times: seq<int>) {
    forall i, j :: 0 <= i < j < |times| ==> times[i] <= times[j]
  }

  /** Loading sorts the events by their time. */
  predicate Loaded(events: seq<Event>) {
    forall i, j :: 0 <= i < j < |events| ==> events[i].ts <= events[j].ts
  }

  predicate EndsBy(times: seq<int>, hi: int) {
    forall k :: 0 <= k < |times| ==> times[k] <= hi
  }

  // ----- The reference: filtering a history

  function Within(times: seq<int>, lo: int, hi: int): seq<int> {
    if times == [] then []
    else
      var last := times[|times| - 1];
      Within(times[..|times| - 1], lo, hi) + if lo <= last <= hi then [last] else []
  }

  lemma WithinOneMore(times: seq<int>, x: int, lo: int, hi: int)
    ensures Within(times + [x], lo, hi) == Within(times, lo, hi) + if lo <= x <= hi then [x] else []
  {
    assert (times + [x])[..|times|] == times;
  }

  predicate IsSample(e: Event) {
    e.kind == "tcp_send_sample" && e.mbps.Some?
  }

  datatype Which = Samples | Restarts | EngineRestarts | Bad | Warn

  predicate Selected(e: Event, which: Which) {
    match which
    case Samples => IsSample(e)
    case Restarts => e.kind == "restart"
    case EngineRestarts => e.kind == "ffmpeg_restart_scheduled" || e.kind == "ffmpeg_exited"
    case Bad => !e.healthy
    case Warn => e.warn
  }

  function Select(events: seq<Event>, which: Which): seq<Event> {
    if events == [] then []
    else
      var last := events[|events| - 1];
      Select(events[..|events| - 1], which) + if Selected(last, which) then [last] else []
  }

  function Times(events: seq<Event>): (r: seq<int>)
    ensures |r| == |events| && forall k :: 0 <= k < |r| ==> r[k] == events[k].ts
  {
    seq(|events|, k requires 0 <= k < |events| => events[k].ts)
  }

  /** The rates of the samples of a history that fall in the closed window. */
  function RatesWithin(events: seq<Event>, lo: int, hi: int): seq<real> {
    if events == [] then []
    else
      var last := events[|events| - 1];
      RatesWithin(events[..|events| - 1], lo, hi)
      + if IsSample(last) && lo <= last.ts <= hi then [last.mbps.value] else []
  }

  /** How often something happened in the `window` seconds up to `ts`, both ends included. */
  function CountAt(events: seq<Event>, which: Which, ts: int, window: int): nat {
    |Within(Times(Select(events, which)), ts - window, ts)|
  }

  // ----- Bisection

  method BisectLeft(times: seq<int>, x: int) returns (left: nat)
    requires Ordered(times)
    ensures left <= |times|
    ensures forall k :: 0 <= k < left ==> times[k] < x
    ensures forall k :: left <= k < |times| ==> x <= times[k]
  {
    var hi := |times|;
    left := 0;
    while left < hi
      invariant 0 <= left <= hi <= |times|
      invariant forall k :: 0 <= k < left ==> times[k] < x
      invariant forall k :: hi <= k < |times| ==> x <= times[k]
    {
      var mid := (left + hi) / 2;
      if times[mid] < x {
        left := mid + 1;
      } else {
        hi := mid;
      }
    }
  }

  method BisectRight(times: seq<int>, x: int) returns (right: nat)
    requires Ordered(times)
    ensures right <= |times|
    ensures forall k :: 0 <= k < right ==> times[k] <= x
    ensures forall k :: right <= k < |times| ==> x < times[k]
  {
    var hi := |times|;
    right := 0;
    while right < hi
      invariant 0 <= right <= hi <= |times|
      invariant forall k :: 0 <= k < right ==> times[k] <= x
      invariant forall k :: hi <= k < |times| ==> x < times[k]
    {
      var mid := (right + hi) / 2;
      if x < times[mid] {
        hi := mid;
      } else {
        right := mid + 1;
      }
    }
  }

  function Min(a: nat, b: nat): nat {
    if a <= b then a else b
  }

  /** Between the two bisections lies exactly the window. */
  predicate Bounds(times: seq<int>, lo: int, hi: int, left: int, right: int) {
    && 0 <= left <= |times| && 0 <= right <= |times|
    && (forall k :: 0 <= k < left ==> times[k] < lo) && (forall k :: left <= k < |times| ==> lo <= times[k])
    && (forall k :: 0 <= k < right ==> times[k] <= hi) && (forall k :: right <= k < |times| ==> hi < times[k])
  }

  lemma SliceIsWindow(times: seq<int>, lo: int, hi: int, left: nat, right: nat)
    requires lo <= hi && Bounds(times, lo, hi, left, right)
    ensures left <= right && Within(times, lo, hi) == times[left..right]
  {
    hide Within;
    assert right < |times| ==> hi < times[right];
    SliceOfPrefix(times, lo, hi, left, right, |times|);
    assert times[..|times|] == times;
  }

  lemma {:induction false} SliceOfPrefix(times: seq<int>, lo: int, hi: int, left: nat, right: nat, n: nat)
    requires Bounds(times, lo, hi, left, right) && left <= right && n <= |times|
    ensures Within(times[..n], lo, hi) == times[Min(left, n)..Min(right, n)]
    decreases n
  {
    hide Within;
    if n == 0 {
      WithinNothing(lo, hi);
      assert times[..0] == [] && times[Min(left, 0)..Min(right, 0)] == [];
    } else {
      SliceOfPrefix(times, lo, hi, left, right, n - 1);
      WithinOneMore(times[..n - 1], times[n - 1], lo, hi);
      assert times[..n] == times[..n - 1] + [times[n - 1]];
      if left < n <= right {
        assert times[left..n] == times[Min(left, n - 1)..Min(right, n - 1)] + [times[n - 1]];
      }
    }
  }

  lemma WithinNothing(lo: int, hi: int)
    ensures Within([], lo, hi) == []
  {
  }

  method CountBetween(times: seq<int>, lo: int, hi: int) returns (count: int)
    requires Ordered(times) && lo <= hi
    ensures count == |Within(times, lo, hi)|
  {
    var right := BisectRight(times, hi);
    var left := BisectLeft(times, lo);
    SliceIsWindow(times, lo, hi, left, right);
    count := right - left;
  }

  lemma {:induction false} SelectKeepsOrder(events: seq<Event>, which: Which)
    requires Loaded(events)
    ensures Loaded(Select(events, which)) && Ordered(Times(Select(events, which)))
    ensures forall k :: 0 <= k < |Select(events, which)| ==> Selected(Select(events, which)[k], which)
    ensures events != [] ==> EndsBy(Times(Select(events, which)), events[|events| - 1].ts)
    decreases |events|
  {
    if events != [] {
      var less, last := events[..|events| - 1], events[|events| - 1];
      SelectKeepsOrder(less, which);
    }
  }

  lemma {:induction false} RatesOfSelected(events: seq<Event>, lo: int, hi: int)
    ensures RatesWithin(events, lo, hi) == RatesWithin(Select(events, Samples), lo, hi)
    decreases |events|
  {
    if events != [] {
      var less, last := events[..|events| - 1], events[|events| - 1];
      RatesOfSelected(less, lo, hi);
      var part := Select(less, Samples);
      assert (part + [last])[..|part|] == part;
      assert part + [] == part;
    }
  }

  /** Between the two bisections of the sample times lie exactly the rates of the window. */
  lemma {:induction false} RatesOfSlice(samples: seq<Event>, lo: int, hi: int, left: nat, right: nat, n: nat)
    requires forall k :: 0 <= k < |samples| ==> samples[k].mbps.Some? && IsSample(samples[k])
    requires Bounds(Times(samples), lo, hi, left, right) && left <= right && n <= |samples|
    ensures RatesWithin(samples[..n], lo, hi) == Rates(samples[Min(left, n)..Min(right, n)])
    decreases n
  {
    hide Rates, RatesWithin;
    if n == 0 {
      NoRates(lo, hi);
      assert samples[..0] == [] && samples[Min(left, 0)..Min(right, 0)] == [];
    } else {
      var last := samples[n - 1];
      var part := samples[Min(left, n - 1)..Min(right, n - 1)];
      RatesOfSlice(samples, lo, hi, left, right, n - 1);
      RatesWithinOneMore(samples[..n - 1], last, lo, hi);
      assert samples[..n] == samples[..n - 1] + [last];
      assert Times(samples)[n - 1] == last.ts;
      if left < n <= right {
        RatesOneMore(part, last);
        assert samples[left..n] == part + [last];
      }
    }
  }

  lemma NoRates(lo: int, hi: int)
    ensures RatesWithin([], lo, hi) == [] == Rates([])
  {
  }

  lemma RatesWithinOneMore(samples: seq<Event>, e: Event, lo: int, hi: int)
    requires IsSample(e)
    ensures RatesWithin(samples + [e], lo, hi) == RatesWithin(samples, lo, hi)
        + if lo <= e.ts <= hi then [e.mbps.value] else []
  {
    assert (samples + [e])[..|samples|] == samples;
  }

  lemma RatesOneMore(samples: seq<Event>, e: Event)
    requires e.mbps.Some? && forall k :: 0 <= k < |samples| ==> samples[k].mbps.Some?
    ensures Rates(samples + [e]) == Rates(samples) + [e.mbps.value]
  {
    assert (samples + [e])[..|samples|] == samples;
  }

  function Rates(samples: seq<Event>): (r: seq<real>)
    requires forall k :: 0 <= k < |samples| ==> samples[k].mbps.Some?
    ensures |r| == |samples|
  {
    if samples == [] then [] else Rates(samples[..|samples| - 1]) + [samples[|samples| - 1].mbps.value]
  }

  // ----- The stepped metrics

  /** Counts over one, eight and twenty-four hours. */
  datatype Counts = Counts(hour: nat, eight: nat, day: nat)

  /** Restart counts, and the rates that feed the upload metrics. */
  datatype RecoveryRow = RecoveryRow(ts: int, rates: seq<real>, counts: Counts)

  function CountsAt(events: seq<Event>, which: Which, ts: int): Counts {
    Counts(CountAt(events, which, ts, HOUR), CountAt(events, which, ts, 8 * HOUR), CountAt(events, which, ts, DAY))
  }

  function RecoveryRows(events: seq<Event>, ts: int, end: int, step: int): seq<RecoveryRow>
    requires step > 0
    decreases end - ts
  {
    if ts > end then []
    else
      [RecoveryRow(ts, RatesWithin(events, ts - DAY, ts), CountsAt(events, Restarts, ts))]
      + RecoveryRows(events, ts + step, end, step)
  }

  method CountThreeWindows(times: seq<int>, ts: int) returns (counts: Counts)
    requires Ordered(times)
    ensures counts == Counts(|Within(times, ts - HOUR, ts)|, |Within(times, ts - 8 * HOUR, ts)|,
        |Within(times, ts - DAY, ts)|)
  {
    var one := CountBetween(times, ts - HOUR, ts);
    var eight := CountBetween(times, ts - 8 * HOUR, ts);
    var day := CountBetween(times, ts - DAY, ts);
    counts := Counts(one, eight, day);
  }

  method RecoveryAt(samples: seq<Event>, sampleTimes: seq<int>, restartTimes: seq<int>,
      ts: int, ghost events: seq<Event>)
    returns (row: RecoveryRow)
    requires Loaded(events) && samples == Select(events, Samples)
    requires sampleTimes == Times(samples) && restartTimes == Times(Select(events, Restarts))
    ensures row == RecoveryRow(ts, RatesWithin(events, ts - DAY, ts), CountsAt(events, Restarts, ts))
  {
    hide Within, RatesWithin, Select, Loaded, Rates;
    SelectKeepsOrder(events, Samples);
    SelectKeepsOrder(events, Restarts);
    var left := BisectLeft(sampleTimes, ts - DAY);
    var right := BisectRight(sampleTimes, ts);
    SliceIsWindow(sampleTimes, ts - DAY, ts, left, right);
    RatesOfSelected(events, ts - DAY, ts);
    RatesOfSlice(samples, ts - DAY, ts, left, right, |samples|);
    assert samples[..|samples|] == samples;
    var counts := CountThreeWindows(restartTimes, ts);
    row := RecoveryRow(ts, Rates(samples[left..right]), counts);
  }

  method FastRecovery(events: seq<Event>, start: int, end: int, step: int) returns (rows: seq<RecoveryRow>)
    requires Loaded(events) && step > 0
    ensures rows == RecoveryRows(events, start, end, step)
  {
    hide CountsAt, RatesWithin, Select, Loaded, Times;
    var samples := Select(events, Samples);
    var sampleTimes, restartTimes := Times(samples), Times(Select(events, Restarts));
    rows := [];
    var ts := start;
    while ts <= end
      invariant RecoveryRows(events, start, end, step) == rows + RecoveryRows(events, ts, end, step)
      decreases end - ts
    {
      var row := RecoveryAt(samples, sampleTimes, restartTimes, ts, events);
      ghost var later := RecoveryRows(events, ts + step, end, step);
      assert rows + ([row] + later) == rows + [row] + later;
      rows := rows + [row];
      ts := ts + step;
    }
  }

  datatype EngineRow = EngineRow(ts: int, counts: Counts)

  function EngineRows(events: seq<Event>, ts: int, end: int, step: int): seq<EngineRow>
    requires step > 0
    decreases end - ts
  {
    if ts > end then []
    else [EngineRow(ts, CountsAt(events, EngineRestarts, ts))] + EngineRows(events, ts + step, end, step)
  }

  method Engine(events: seq<Event>, start: int, end: int, step: int) returns (rows: seq<EngineRow>)
    requires Loaded(events) && step > 0
    ensures rows == EngineRows(events, start, end, step)
  {
    hide Within, Select, Loaded, Times;
    SelectKeepsOrder(events, EngineRestarts);
    var times := Times(Select(events, EngineRestarts));
    rows := [];
    var ts := start;
    while ts <= end
      invariant EngineRows(events, start, end, step) == rows + EngineRows(events, ts, end, step)
      decreases end - ts
    {
      var counts := CountThreeWindows(times, ts);
      ghost var later := EngineRows(events, ts + step, end, step);
      assert rows + ([EngineRow(ts, counts)] + later) == rows + [EngineRow(ts, counts)] + later;
      rows := rows + [EngineRow(ts, counts)];
      ts := ts + step;
    }
  }

  // ----- The deques

  datatype HealthRow = HealthRow(ts: int, bad: bool, badCounts: Counts, warnCounts: Counts)

  /** The row of event `i`, from filtering the history up to and including it. */
  function HealthAt(events: seq<Event>, i: nat): HealthRow
    requires i < |events|
  {
    var ts := events[i].ts;
    HealthRow(ts, !events[i].healthy, CountsAt(events[..i + 1], Bad, ts), CountsAt(events[..i + 1], Warn, ts))
  }

  method Prune(window: seq<int>, lo: int, ghost hi: int) returns (kept: seq<int>)
    requires Ordered(window) && EndsBy(window, hi) && lo <= hi
    ensures kept == Within(window, lo, hi) && Ordered(kept)
  {
    kept := window;
    ghost var n := 0;
    while kept != [] && kept[0] < lo
      invariant 0 <= n <= |window| && kept == window[n..]
      invariant forall k :: 0 <= k < n ==> window[k] < lo
      decreases |kept|
    {
      kept := kept[1..];
      n := n + 1;
    }
    if n < |window| {
      assert window[n] == kept[0];
    }
    SliceIsWindow(window, lo, hi, n, |window|);
  }

  method CountFrom(window: seq<int>, lo: int, ghost hi: int) returns (count: nat)
    requires EndsBy(window, hi)
    ensures count == |Within(window, lo, hi)|
  {
    count := 0;
    assert window[..0] == [];
    for k := 0 to |window|
      invariant count == |Within(window[..k], lo, hi)|
    {
      assert window[..k + 1][..k] == window[..k];
      if window[k] >= lo {
        count := count + 1;
      }
    }
    assert window[..|window|] == window;
  }

  /** Filtering to a window and then to a narrower one that ends no earlier than the history. */
  lemma {:induction false} WithinNarrows(times: seq<int>, lo: int, hi: int, lo': int, hi': int)
    requires lo <= lo' && hi <= hi' && EndsBy(times, hi)
    ensures Within(Within(times, lo, hi), lo', hi') == Within(times, lo', hi')
    decreases |times|
  {
    if times != [] {
      var less := times[..|times| - 1];
      WithinNarrows(less, lo, hi, lo', hi');
      WithinOneMore(Within(less, lo, hi), times[|times| - 1], lo', hi');
      assert Within(less, lo, hi) + [] == Within(less, lo, hi);
    }
  }

  lemma {:induction false} WithinBounded(times: seq<int>, lo: int, hi: int, end: int)
    requires EndsBy(times, end)
    ensures EndsBy(Within(times, lo, hi), end)
    decreases |times|
  {
    if times != [] {
      WithinBounded(times[..|times| - 1], lo, hi, end);
    }
  }

  lemma {:induction false} WithinKeepsOrder(times: seq<int>, lo: int, hi: int)
    requires Ordered(times)
    ensures Ordered(Within(times, lo, hi))
    decreases |times|
  {
    if times != [] {
      var less, last := times[..|times| - 1], times[|times| - 1];
      WithinKeepsOrder(less, lo, hi);
      WithinBounded(less, lo, hi, last);
    }
  }

  /** What a deque holds after the first `n` events. */
  ghost predicate Holds(events: seq<Event>, n: nat, which: Which, window: seq<int>)
    requires n <= |events|
  {
    if n == 0 then window == []
    else window == Within(Times(Select(events[..n], which)), events[n - 1].ts - DAY, events[n - 1].ts)
  }

  /** Appending the event's time and pruning the front keeps a deque equal to the filtered history. */
  method Slide(events: seq<Event>, n: nat, which: Which, window: seq<int>) returns (slid: seq<int>, counts: Counts)
    requires Loaded(events) && n < |events| && Holds(events, n, which, window)
    ensures Holds(events, n + 1, which, slid)
    ensures counts == CountsAt(events[..n + 1], which, events[n].ts)
  {
    hide Within, Select;
    var ts := events[n].ts;
    var grown := if Selected(events[n], which) then window + [ts] else window;
    GrownWindow(events, n, which, window);
    slid := Prune(grown, ts - DAY, ts);
    ghost var times := Times(Select(events[..n + 1], which));
    WindowOfHistory(events, n, which);
    WithinNarrows(times, ts - DAY, ts, ts - HOUR, ts);
    WithinNarrows(times, ts - DAY, ts, ts - 8 * HOUR, ts);
    WithinNarrows(times, ts - DAY, ts, ts - DAY, ts);
    var one := CountFrom(slid, ts - HOUR, ts);
    var eight := CountFrom(slid, ts - 8 * HOUR, ts);
    var day := CountFrom(slid, ts - DAY, ts);
    counts := Counts(one, eight, day);
  }

  lemma WindowOfHistory(events: seq<Event>, n: nat, which: Which)
    requires Loaded(events) && n < |events|
    ensures
      var times := Times(Select(events[..n + 1], which));
      && Ordered(times) && EndsBy(times, events[n].ts)
      && Ordered(Within(times, events[n].ts - DAY, events[n].ts))
      && EndsBy(Within(times, events[n].ts - DAY, events[n].ts), events[n].ts)
  {
    hide Within, Select;
    SelectKeepsOrder(events[..n + 1], which);
    var times := Times(Select(events[..n + 1], which));
    WithinKeepsOrder(times, events[n].ts - DAY, events[n].ts);
    WithinBounded(times, events[n].ts - DAY, events[n].ts, events[n].ts);
  }

  lemma TimesOneMore(events: seq<Event>, n: nat, which: Which)
    requires n < |events|
    ensures
      Times(Select(events[..n + 1], which)) ==
        Times(Select(events[..n], which)) + if Selected(events[n], which) then [events[n].ts] else []
  {
    assert events[..n + 1][..n] == events[..n];
  }

  lemma GrownWindow(events: seq<Event>, n: nat, which: Which, window: seq<int>)
    requires Loaded(events) && n < |events| && Holds(events, n, which, window)
    ensures
      var ts := events[n].ts;
      var grown := if Selected(events[n], which) then window + [ts] else window;
      && Ordered(grown) && EndsBy(grown, ts)
      && Within(grown, ts - DAY, ts) == Within(Times(Select(events[..n + 1], which)), ts - DAY, ts)
  {
    hide Within, Select, Selected;
    var ts := events[n].ts;
    var before := Times(Select(events[..n], which));
    TimesOneMore(events, n, which);
    if n == 0 {
      NoTimes(which);
      assert events[..0] == [];
    } else {
      WindowOfHistory(events, n - 1, which);
      WithinNarrows(before, events[n - 1].ts - DAY, events[n - 1].ts, ts - DAY, ts);
    }
    if Selected(events[n], which) {
      WithinOneMore(window, ts, ts - DAY, ts);
      WithinOneMore(before, ts, ts - DAY, ts);
    } else {
      assert before + [] == before;
    }
  }

  lemma NoTimes(which: Which)
    ensures Times(Select([], which)) == []
  {
  }

  /** Row by row, the loop over the deques equals filtering the history so far. */
  method YoutubeHealth(events: seq<Event>) returns (rows: seq<HealthRow>)
    requires Loaded(events)
    ensures |rows| == |events| && forall i :: 0 <= i < |events| ==> rows[i] == HealthAt(events, i)
  {
    hide CountsAt, Holds, Loaded;
    rows := [];
    var badWindow: seq<int>, warnWindow: seq<int> := [], [];
    HoldsNothing(events);
    for n := 0 to |events|
      invariant |rows| == n && forall i :: 0 <= i < n ==> rows[i] == HealthAt(events, i)
      invariant Holds(events, n, Bad, badWindow) && Holds(events, n, Warn, warnWindow)
    {
      var badCounts, warnCounts;
      badWindow, badCounts := Slide(events, n, Bad, badWindow);
      warnWindow, warnCounts := Slide(events, n, Warn, warnWindow);
      rows := rows + [HealthRow(events[n].ts, !events[n].healthy, badCounts, warnCounts)];
    }
  }

  lemma HoldsNothing(events: seq<Event>)
    ensures Holds(events, 0, Bad, []) && Holds(events, 0, Warn, [])
  {
  }

  // ----- The history so far, and the whole history

  predicate SameTimeLater(events: seq<Event>, i: nat, which: Which)
    requires i < |events|
  {
    exists j :: i < j < |events| && events[j].ts == events[i].ts && Selected(events[j], which)
  }

  /** A row counts what filtering the whole history counts exactly when nothing of the kind shares its second later. */
  lemma SoFarIsWholeIff(events: seq<Event>, i: nat, which: Which, window: nat)
    requires Loaded(events) && i < |events|
    ensures
      var ts := events[i].ts;
      && CountAt(events[..i + 1], which, ts, window) <= CountAt(events, which, ts, window)
      && (CountAt(events[..i + 1], which, ts, window) == CountAt(events, which, ts, window)
          <==> !SameTimeLater(events, i, which))
  {
    CountGrows(events, i, |events|, which, window);
    assert events[..|events|] == events;
  }

  lemma {:induction false} CountGrows(events: seq<Event>, i: nat, n: nat, which: Which, window: nat)
    requires Loaded(events) && i < n <= |events|
    ensures
      var ts := events[i].ts;
      && CountAt(events[..i + 1], which, ts, window) <= CountAt(events[..n], which, ts, window)
      && (CountAt(events[..i + 1], which, ts, window) == CountAt(events[..n], which, ts, window)
          <==> forall j :: i < j < n ==> events[j].ts != ts || !Selected(events[j], which))
    decreases n
  {
    hide Selected;
    if n > i + 1 {
      CountGrows(events, i, n - 1, which, window);
      CountOneMore(events, n - 1, which, events[i].ts, window);
    }
  }

  lemma CountOneMore(events: seq<Event>, j: nat, which: Which, ts: int, window: nat)
    requires j < |events|
    ensures
      CountAt(events[..j + 1], which, ts, window) ==
        CountAt(events[..j], which, ts, window)
        + if Selected(events[j], which) && ts - window <= events[j].ts <= ts then 1 else 0
  {
    hide Within, Select, Selected;
    TimesOneMore(events, j, which);
    var before := Times(Select(events[..j], which));
    WithinOneMore(before, events[j].ts, ts - window, ts);
    assert before + [] == before;
  }

  // ----- What is written for one second

  /** One sample of a series; the series that matter here hold counts. */
  datatype Point = Point(ts: int, value: int)

  predicate Before(p: Point, q: Point) {
    p.ts < q.ts || (p.ts == q.ts && p.value <= q.value)
  }

  predicate InOrder(points: seq<Point>) {
    forall i, j :: 0 <= i < j < |points| ==> Before(points[i], points[j])
  }

  function Insert(p: Point, sorted: seq<Point>): seq<Point> {
    if sorted == [] || Before(p, sorted[0]) then [p] + sorted else [sorted[0]] + Insert(p, sorted[1..])
  }

  function Sort(points: seq<Point>): seq<Point> {
    if points == [] then [] else Insert(points[0], Sort(points[1..]))
  }

  lemma {:induction false} InsertOrders(p: Point, sorted: seq<Point>)
    requires InOrder(sorted)
    ensures InOrder(Insert(p, sorted)) && forall q :: q in Insert(p, sorted) <==> q == p || q in sorted
    decreases |sorted|
  {
    if sorted != [] && !Before(p, sorted[0]) {
      var rest := sorted[1..];
      InsertOrders(p, rest);
      assert sorted == [sorted[0]] + rest;
      assert forall q :: q in rest ==> Before(sorted[0], q);
    }
  }

  lemma {:induction false} SortOrders(points: seq<Point>)
    ensures InOrder(Sort(points)) && forall q :: q in Sort(points) <==> q in points
    decreases |points|
  {
    if points != [] {
      SortOrders(points[1..]);
      InsertOrders(points[0], Sort(points[1..]));
      assert points == [points[0]] + points[1..];
    }
  }

  /** No sample of the series at the same time has a smaller value. */
  predicate Least(points: seq<Point>, p: Point) {
    p in points && forall q :: q in points && q.ts == p.ts ==> p.value <= q.value
  }

  predicate Ascending(rows: seq<Point>) {
    forall i, j :: 0 <= i < j < |rows| ==> rows[i].ts < rows[j].ts
  }

  /** One series is written in order of time, one row a second: the smallest value of that second. */
  method WriteSeries(points: seq<Point>) returns (rows: seq<Point>)
    ensures Ascending(rows)
    ensures forall p :: p in rows <==> p.ts >= 0 && Least(points, p)
  {
    hide Sort, InOrder, Least;
    var sorted := Sort(points);
    SortOrders(points);
    var last := -1;
    rows := [];
    NothingWritten();
    for n := 0 to |sorted|
      invariant Ascending(rows) && Reached(sorted[..n], rows, last)
    {
      var p := sorted[n];
      assert sorted[..n + 1] == sorted[..n] + [p];
      PrefixInOrder(sorted, n);
      if p.ts <= last {
        SkipKeeps(sorted[..n], p, rows, last);
        continue;
      }
      RowKeeps(sorted[..n], p, rows, last);
      last := p.ts;
      rows := rows + [p];
    }
    assert sorted[..|sorted|] == sorted;
    SameLeast(sorted, points);
  }

  /** After the samples `seen` the loop has written their least ones and stands at the last time. */
  ghost predicate Reached(seen: seq<Point>, rows: seq<Point>, last: int) {
    && (forall p :: p in rows <==> p.ts >= 0 && Least(seen, p))
    && last >= -1
    && (forall p :: p in seen ==> p.ts <= last)
    && (last >= 0 ==> exists p :: p in seen && p.ts == last)
  }

  lemma NothingWritten()
    ensures Reached([], [], -1)
  {
  }

  lemma PrefixInOrder(sorted: seq<Point>, n: nat)
    requires InOrder(sorted) && n < |sorted|
    ensures forall q :: q in sorted[..n] ==> Before(q, sorted[n])
  {
  }

  lemma SkipKeeps(seen: seq<Point>, p: Point, rows: seq<Point>, last: int)
    requires Reached(seen, rows, last) && p.ts <= last && forall q :: q in seen ==> Before(q, p)
    ensures Reached(seen + [p], rows, last)
  {
    if last >= 0 {
      var q :| q in seen && q.ts == last;
      assert Before(q, p);
    }
    forall r ensures r in rows <==> r.ts >= 0 && Least(seen + [p], r) {
      if r == p && Least(seen + [p], r) && r.ts >= 0 {
        var q :| q in seen && q.ts == last;
        assert Before(q, p) && q == p;
      }
    }
  }

  lemma RowKeeps(seen: seq<Point>, p: Point, rows: seq<Point>, last: int)
    requires Reached(seen, rows, last) && p.ts > last
    ensures Reached(seen + [p], rows + [p], p.ts)
    ensures Ascending(rows) ==> Ascending(rows + [p])
  {
    assert forall r :: r in rows ==> r in seen;
  }

  lemma SameLeast(a: seq<Point>, b: seq<Point>)
    requires forall p :: p in a <==> p in b
    ensures forall p :: Least(a, p) <==> Least(b, p)
  {
  }

  // ----- The written counts and flags

  /** The samples that the loop over the events adds to the count of one window. */
  function CountPoints(events: seq<Event>, which: Which, window: nat): (points: seq<Point>)
    ensures |points| == |events|
    ensures forall i :: 0 <= i < |points| ==>
      points[i] == Point(events[i].ts, CountAt(events[..i + 1], which, events[i].ts, window))
  {
    seq(|events|, i requires 0 <= i < |events| =>
        Point(events[i].ts, CountAt(events[..i + 1], which, events[i].ts, window)))
  }

  function Flag(count: nat): nat {
    if count > 0 then 1 else 0
  }

  /** The samples of a flag that says whether the count is positive. */
  function FlagPoints(events: seq<Event>, which: Which, window: nat): (points: seq<Point>)
    ensures |points| == |events|
    ensures forall i :: 0 <= i < |points| ==>
      points[i] == Point(events[i].ts, Flag(CountAt(events[..i + 1], which, events[i].ts, window)))
  {
    seq(|events|, i requires 0 <= i < |events| =>
      Point(events[i].ts, Flag(CountAt(events[..i + 1], which, events[i].ts, window))))
  }

  predicate FirstOfSecond(events: seq<Event>, i: nat)
    requires i < |events|
  {
    forall j :: 0 <= j < i ==> events[j].ts != events[i].ts
  }

  /** Of the samples of one second the first one is the least, for counts and for flags. */
  lemma FirstIsLeast(events: seq<Event>, which: Which, first: nat, window: nat, value: int)
    requires Loaded(events) && first < |events| && FirstOfSecond(events, first)
    ensures
      var count := CountAt(events[..first + 1], which, events[first].ts, window);
      && (Least(CountPoints(events, which, window), Point(events[first].ts, value)) <==> value == count)
      && (Least(FlagPoints(events, which, window), Point(events[first].ts, value)) <==> value == Flag(count))
  {
    hide CountAt;
    var points, flags := CountPoints(events, which, window), FlagPoints(events, which, window);
    var ts := events[first].ts;
    forall i | 0 <= i < |events| && events[i].ts == ts
      ensures points[first].value <= points[i].value && flags[first].value <= flags[i].value
    {
      if first < i {
        CountGrows(events, first, i + 1, which, window);
      }
    }
    LeastAt(points, first, value);
    LeastAt(flags, first, value);
  }

  lemma LeastAt(points: seq<Point>, first: nat, value: int)
    requires first < |points|
    requires forall i :: 0 <= i < |points| && points[i].ts == points[first].ts ==>
      points[first].value <= points[i].value
    ensures Least(points, Point(points[first].ts, value)) <==> value == points[first].value
  {
    assert Least(points, points[first]);
  }

  function CountOf(counts: Counts, window: int): nat {
    if window == HOUR then counts.hour else if window == 8 * HOUR then counts.eight else counts.day
  }

  predicate IsWindow(window: int) {
    window == HOUR || window == 8 * HOUR || window == DAY
  }

  /** The warning count written for a second is the count at its first event, and it is the count over the whole
      history exactly when no warning follows that event within the second. */
  method WarnCounts(events: seq<Event>, window: nat) returns (rows: seq<Point>)
    requires Loaded(events) && IsWindow(window)
    ensures Ascending(rows)
    ensures forall i, value :: 0 <= i < |events| && FirstOfSecond(events, i) && events[i].ts >= 0 ==>
      (Point(events[i].ts, value) in rows <==> value == CountAt(events[..i + 1], Warn, events[i].ts, window))
    ensures forall i :: 0 <= i < |events| && FirstOfSecond(events, i) && events[i].ts >= 0 ==>
      (Point(events[i].ts, CountAt(events, Warn, events[i].ts, window)) in rows <==> !SameTimeLater(events, i, Warn))
  {
    hide CountAt, Loaded, FirstOfSecond, SameTimeLater, Least;
    var health := YoutubeHealth(events);
    var points: seq<Point> := [];
    for n := 0 to |events|
      invariant points == CountPoints(events, Warn, window)[..n]
    {
      points := points + [Point(health[n].ts, CountOf(health[n].warnCounts, window))];
    }
    assert points == CountPoints(events, Warn, window);
    rows := WriteSeries(points);
    forall i, value | 0 <= i < |events| && FirstOfSecond(events, i) && events[i].ts >= 0
      ensures Point(events[i].ts, value) in rows <==> value == CountAt(events[..i + 1], Warn, events[i].ts, window)
    {
      FirstIsLeast(events, Warn, i, window, value);
    }
    forall i | 0 <= i < |events| && FirstOfSecond(events, i) && events[i].ts >= 0
      ensures
        var whole := CountAt(events, Warn, events[i].ts, window);
        Point(events[i].ts, whole) in rows <==> !SameTimeLater(events, i, Warn)
    {
      SoFarIsWholeIff(events, i, Warn, window);
    }
  }

  /** The degraded flag written for a second is the one at its first event, and it is the whole history's exactly
      when the window is bad by that event already or nothing bad follows it within the second. */
  method DegradedFlags(events: seq<Event>, window: nat) returns (rows: seq<Point>)
    requires Loaded(events) && IsWindow(window)
    ensures Ascending(rows)
    ensures forall i, value :: 0 <= i < |events| && FirstOfSecond(events, i) && events[i].ts >= 0 ==>
      (Point(events[i].ts, value) in rows <==> value == Flag(CountAt(events[..i + 1], Bad, events[i].ts, window)))
    ensures forall i :: 0 <= i < |events| && FirstOfSecond(events, i) && events[i].ts >= 0 ==>
      (Point(events[i].ts, Flag(CountAt(events, Bad, events[i].ts, window))) in rows <==>
         CountAt(events[..i + 1], Bad, events[i].ts, window) > 0 || !SameTimeLater(events, i, Bad))
  {
    hide CountAt, Loaded, FirstOfSecond, SameTimeLater, Least;
    var health := YoutubeHealth(events);
    var points: seq<Point> := [];
    for n := 0 to |events|
      invariant points == FlagPoints(events, Bad, window)[..n]
    {
      points := points + [Point(health[n].ts, if CountOf(health[n].badCounts, window) > 0 then 1 else 0)];
    }
    assert points == FlagPoints(events, Bad, window);
    rows := WriteSeries(points);
    forall i, value | 0 <= i < |events| && FirstOfSecond(events, i) && events[i].ts >= 0
      ensures Point(events[i].ts, value) in rows <==> value == Flag(CountAt(events[..i + 1], Bad, events[i].ts, window))
    {
      FirstIsLeast(events, Bad, i, window, value);
    }
    forall i | 0 <= i < |events| && FirstOfSecond(events, i) && events[i].ts >= 0
      ensures Point(events[i].ts, Flag(CountAt(events, Bad, events[i].ts, window))) in rows <==>
        CountAt(events[..i + 1], Bad, events[i].ts, window) > 0 || !SameTimeLater(events, i, Bad)
    {
      SoFarIsWholeIff(events, i, Bad, window);
    }
  }

  /** Two warnings in one second: one is written, two happened. */
  lemma SecondWarningIsMissed()
    ensures
      var e := Event(100, "health", None, true, true);
      && FirstOfSecond([e, e], 0) && SameTimeLater([e, e], 0, Warn)
      && CountAt([e, e][..1], Warn, 100, HOUR) == 1 && CountAt([e, e], Warn, 100, HOUR) == 2
      && Least(CountPoints([e, e], Warn, HOUR), Point(100, 1)) && !Least(CountPoints([e, e], Warn, HOUR), Point(100, 2))
  {
    hide Least, CountPoints;
    var e := Event(100, "health", None, true, true);
    var events := [e, e];
    CountOneMore(events, 0, Warn, 100, HOUR);
    CountOneMore(events, 1, Warn, 100, HOUR);
    assert events[..0] == [] && events[..2] == events;
    assert Times(Select([], Warn)) == [];
    assert events[1].ts == events[0].ts && Selected(events[1], Warn);
    FirstIsLeast(events, Warn, 0, HOUR, 1);
    FirstIsLeast(events, Warn, 0, HOUR, 2);
  }
}
