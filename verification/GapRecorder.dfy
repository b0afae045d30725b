/** The gap recorder (ops/scripts/relay_output_gap_recorder.py): overlapping, rotating windows of one timeline of
    samples, whose gaps are appended once to a durable log.
 */
module GapRecorder {
  import opened Options

  datatype Row = Row(
    captured: real, clockValid: bool, captureOk: bool, shown: Option<real>, age: Option<real>, reason: string)

  predicate Verified(r: Row) {
    r.captureOk && r.clockValid && r.shown.Some?
  }

  datatype Kind = Interrupted | Missing

  datatype GapId = GapId(last: real, next: real)

  datatype Gap = Gap(
    kind: Kind, id: GapId, unobserved: real, lastShown: real, nextShown: real, advance: real,
    ageBefore: Option<real>, ageAfter: Option<real>, between: multiset<string>)

  // ----- The reference: gaps between consecutive verified rows

  /** The last verified row before position `n`. */
  function LastVerified(rows: seq<Row>, n: nat): (r: Option<nat>)
    requires n <= |rows|
    ensures r.Some? ==> r.value < n && Verified(rows[r.value]) && forall k :: r.value < k < n ==> !Verified(rows[k])
    ensures r.None? ==> forall k :: 0 <= k < n ==> !Verified(rows[k])
  {
    if n == 0 then None
    else if Verified(rows[n - 1]) then Some(n - 1)
    else LastVerified(rows, n - 1)
  }

  function Reasons(rows: seq<Row>): multiset<string> {
    if rows == [] then multiset{} else Reasons(rows[..|rows| - 1]) + multiset{rows[|rows| - 1].reason}
  }

  predicate CaptureFailed(rows: seq<Row>) {
    exists k :: 0 <= k < |rows| && !rows[k].captureOk
  }

  /** The gap, if any, between two verified rows with the unverified rows `inside` between them. */
  function GapBetween(last: Row, inside: seq<Row>, next: Row, missing: real): seq<Gap>
    requires Verified(last) && Verified(next)
  {
    var unobserved := next.captured - last.captured;
    var lost := CaptureFailed(inside);
    if lost || (unobserved > missing && inside == []) then
      [Gap(if lost then Interrupted else Missing, GapId(last.captured, next.captured), unobserved,
           last.shown.value, next.shown.value, next.shown.value - last.shown.value,
           last.age, next.age, Reasons(inside))]
    else []
  }

  /** The gap that row `j` closes. */
  function GapAt(rows: seq<Row>, j: nat, missing: real): seq<Gap>
    requires j < |rows|
  {
    var i := LastVerified(rows, j);
    if Verified(rows[j]) && i.Some? then GapBetween(rows[i.value], rows[i.value + 1..j], rows[j], missing) else []
  }

  /** All gaps that the first `n` rows close. */
  function GapsUpTo(rows: seq<Row>, n: nat, missing: real): seq<Gap>
    requires n <= |rows|
  {
    if n == 0 then [] else GapsUpTo(rows, n - 1, missing) + GapAt(rows, n - 1, missing)
  }

  function Gaps(rows: seq<Row>, missing: real): seq<Gap> {
    GapsUpTo(rows, |rows|, missing)
  }

  // ----- The same gaps on the rows' own fields

  /** Rows `i` and `j` show a valid clock, and no row between them does. */
  predicate Neighbours(rows: seq<Row>, i: int, j: int) {
    && 0 <= i < j < |rows|
    && rows[i].captureOk && rows[i].clockValid && rows[i].shown.Some?
    && rows[j].captureOk && rows[j].clockValid && rows[j].shown.Some?
    && forall k :: i < k < j ==> !rows[k].captureOk || !rows[k].clockValid || rows[k].shown.None?
  }

  predicate Interrupts(rows: seq<Row>, i: int, j: int)
    requires 0 <= i < j < |rows|
  {
    exists k :: i < k < j && !rows[k].captureOk
  }

  /** A failed capture lies between the two, or nothing at all and too much time. */
  predicate Parted(rows: seq<Row>, i: int, j: int, missing: real) {
    && Neighbours(rows, i, j)
    && (Interrupts(rows, i, j) || (i + 1 == j && rows[j].captured > rows[i].captured + missing))
  }

  /** The gap lies between these two rows, with the reasons of all the rows between. */
  predicate Between(rows: seq<Row>, i: int, j: int, gap: Gap)
    requires Neighbours(rows, i, j)
  {
    gap == Gap(if Interrupts(rows, i, j) then Interrupted else Missing, GapId(rows[i].captured, rows[j].captured),
               rows[j].captured - rows[i].captured, rows[i].shown.value, rows[j].shown.value,
               rows[j].shown.value - rows[i].shown.value, rows[i].age, rows[j].age,
               multiset(seq(j - i - 1, k requires 0 <= k < j - i - 1 => rows[i + 1 + k].reason)))
  }

  ghost predicate Found(rows: seq<Row>, n: nat, missing: real, gap: Gap)
    requires n <= |rows|
  {
    exists i, j :: 0 <= j < n && Parted(rows, i, j, missing) && Between(rows, i, j, gap)
  }

  /** The gaps are exactly those between parted neighbours. */
  lemma {:induction false} GapsArePartedNeighbours(rows: seq<Row>, n: nat, missing: real, gap: Gap)
    requires n <= |rows|
    ensures gap in GapsUpTo(rows, n, missing) <==> Found(rows, n, missing, gap)
  {
    hide GapAt, Parted, Between;
    if n > 0 {
      GapsArePartedNeighbours(rows, n - 1, missing, gap);
      ClosingRow(rows, n - 1, missing, gap);
    }
  }

  lemma ClosingRow(rows: seq<Row>, j: nat, missing: real, gap: Gap)
    requires j < |rows|
    ensures gap in GapAt(rows, j, missing) <==> exists i :: Parted(rows, i, j, missing) && Between(rows, i, j, gap)
  {
    hide LastVerified, Reasons;
    var last := LastVerified(rows, j);
    if Verified(rows[j]) && last.Some? {
      var i := last.value;
      assert Neighbours(rows, i, j) && forall k :: Neighbours(rows, k, j) ==> k == i;
      var inside := rows[i + 1..j];
      ReasonsAre(inside);
      assert seq(j - i - 1, k requires 0 <= k < j - i - 1 => rows[i + 1 + k].reason)
          == seq(|inside|, k requires 0 <= k < |inside| => inside[k].reason);
      assert Interrupts(rows, i, j) <==> CaptureFailed(inside) by {
        if Interrupts(rows, i, j) {
          var k :| i < k < j && !rows[k].captureOk;
          assert inside[k - i - 1] == rows[k];
        }
      }
      OnlyGap(rows, i, j, missing, gap);
    }
  }

  lemma OnlyGap(rows: seq<Row>, i: nat, j: nat, missing: real, gap: Gap)
    requires Neighbours(rows, i, j) && (Interrupts(rows, i, j) <==> CaptureFailed(rows[i + 1..j]))
    requires Reasons(rows[i + 1..j])
      == multiset(seq(j - i - 1, k requires 0 <= k < j - i - 1 => rows[i + 1 + k].reason))
    ensures gap in GapBetween(rows[i], rows[i + 1..j], rows[j], missing) <==>
      Parted(rows, i, j, missing) && Between(rows, i, j, gap)
  {
    hide Reasons, CaptureFailed, Interrupts;
  }

  lemma {:induction false} ReasonsAre(rows: seq<Row>)
    ensures Reasons(rows) == multiset(seq(|rows|, k requires 0 <= k < |rows| => rows[k].reason))
  {
    if rows != [] {
      var n := |rows| - 1;
      ReasonsAre(rows[..n]);
      assert seq(|rows|, k requires 0 <= k < |rows| => rows[k].reason)
          == seq(n, k requires 0 <= k < n => rows[..n][k].reason) + [rows[n].reason];
    }
  }

  // ----- The loop

  /** What the loop carries after `n` rows, the last verified one being `p - 1`. */
  ghost predicate Carried(rows: seq<Row>, n: nat, p: nat,
                         last: Option<Row>, between: multiset<string>, captureFailed: bool)
    requires n <= |rows|
  {
    if last.None? then LastVerified(rows, n).None?
    else
      && 0 < p <= n && LastVerified(rows, n) == Some(p - 1) && last.value == rows[p - 1]
      && between == Reasons(rows[p..n]) && captureFailed == CaptureFailed(rows[p..n]) && |between| == n - p
  }

  method FindGaps(rows: seq<Row>, missing: real) returns (found: seq<Gap>)
    ensures found == Gaps(rows, missing)
  {
    hide LastVerified, Reasons, CaptureFailed, GapBetween;
    var last: Option<Row> := None;
    var between: multiset<string> := multiset{};
    var captureFailed := false;
    found := [];
    ghost var p := 0;
    CarriesNothing(rows);
    for n := 0 to |rows|
      invariant found == GapsUpTo(rows, n, missing)
      invariant Carried(rows, n, p, last, between, captureFailed)
    {
      var row := rows[n];
      if !Verified(row) {
        CarriesOneMore(rows, n, p, last, between, captureFailed);
        between := between + multiset{row.reason};
        captureFailed := captureFailed || !row.captureOk;
      } else {
        if last.Some? {
          var unobserved := row.captured - last.value.captured;
          GapShape(last.value, rows[p..n], row, missing, between, captureFailed);
          if captureFailed || (unobserved > missing && between == multiset{}) {
            found := found + [Gap(if captureFailed then Interrupted else Missing,
                GapId(last.value.captured, row.captured),
                                  unobserved, last.value.shown.value, row.shown.value,
                                  row.shown.value - last.value.shown.value, last.value.age, row.age, between)];
          }
        }
        CarriesVerified(rows, n);
        last, between, captureFailed, p := Some(row), multiset{}, false, n + 1;
      }
    }
  }

  lemma CarriesNothing(rows: seq<Row>)
    ensures Carried(rows, 0, 0, None, multiset{}, false)
  {
  }

  lemma CarriesVerified(rows: seq<Row>, n: nat)
    requires n < |rows| && Verified(rows[n])
    ensures Carried(rows, n + 1, n + 1, Some(rows[n]), multiset{}, false)
  {
    assert rows[n + 1..n + 1] == [];
  }

  lemma CarriesOneMore(rows: seq<Row>, n: nat, p: nat,
      last: Option<Row>, between: multiset<string>, captureFailed: bool)
    requires n < |rows| && !Verified(rows[n]) && Carried(rows, n, p, last, between, captureFailed)
    ensures Carried(rows, n + 1, p, last, between + multiset{rows[n].reason}, captureFailed || !rows[n].captureOk)
  {
    if last.Some? {
      var inside := rows[p..n];
      assert rows[p..n + 1] == inside + [rows[n]];
      assert (inside + [rows[n]])[..|inside|] == inside;
      FailedOneMore(inside, rows[n]);
    }
  }

  lemma FailedOneMore(rows: seq<Row>, row: Row)
    ensures CaptureFailed(rows + [row]) == (CaptureFailed(rows) || !row.captureOk)
  {
    var more := rows + [row];
    assert more[|rows|] == row;
    if CaptureFailed(rows) {
      var k :| 0 <= k < |rows| && !rows[k].captureOk;
      assert more[k] == rows[k];
    }
  }

  lemma GapShape(last: Row, inside: seq<Row>, next: Row, missing: real, between: multiset<string>, captureFailed: bool)
    requires Verified(last) && Verified(next)
    requires between == Reasons(inside) && captureFailed == CaptureFailed(inside) && |between| == |inside|
    ensures
      var unobserved := next.captured - last.captured;
      GapBetween(last, inside, next, missing) ==
        if captureFailed || (unobserved > missing && between == multiset{}) then
          [Gap(if captureFailed then Interrupted else Missing, GapId(last.captured, next.captured), unobserved,
               last.shown.value, next.shown.value, next.shown.value - last.shown.value, last.age, next.age, between)]
        else []
  {
    hide Reasons, CaptureFailed;
    assert between == multiset{} <==> inside == [];
  }

  // ----- Gaps of a part of a timeline

  lemma {:induction false} GapsOfPrefix(rows: seq<Row>, hi: nat, n: nat, missing: real)
    requires n <= hi <= |rows|
    ensures GapsUpTo(rows[..hi], n, missing) == GapsUpTo(rows, n, missing)
  {
    hide GapAt;
    if n > 0 {
      GapsOfPrefix(rows, hi, n - 1, missing);
      assert rows[0..hi] == rows[..hi];
      SameGapAt(rows, 0, hi, n - 1, missing);
    }
  }

  lemma {:induction false} SameLastVerified(rows: seq<Row>, lo: nat, hi: nat, n: nat)
    requires lo <= n <= hi <= |rows|
    ensures
      var inner := LastVerified(rows[lo..hi], n - lo);
      var outer := LastVerified(rows, n);
      && (inner.Some? ==> outer == Some(inner.value + lo))
      && (inner.None? ==> forall k :: lo <= k < n ==> !Verified(rows[k]))
    decreases n
  {
    var inner := LastVerified(rows[lo..hi], n - lo);
    if inner.None? {
      forall k | lo <= k < n ensures !Verified(rows[k]) {
        assert rows[k] == rows[lo..hi][k - lo];
      }
    } else if n > lo && !Verified(rows[n - 1]) {
      SameLastVerified(rows, lo, hi, n - 1);
    }
  }

  /** A window sees the gap that a row closes as soon as it holds the verified row before it. */
  lemma SameGapAt(rows: seq<Row>, lo: nat, hi: nat, j: nat, missing: real)
    requires lo <= j < hi <= |rows|
    requires lo == 0 || LastVerified(rows[lo..hi], j - lo).Some?
    ensures GapAt(rows[lo..hi], j - lo, missing) == GapAt(rows, j, missing)
  {
    hide GapBetween, LastVerified;
    var window := rows[lo..hi];
    SameLastVerified(rows, lo, hi, j);
    var i := LastVerified(window, j - lo);
    if i.Some? {
      assert window[i.value] == rows[i.value + lo];
      SliceOfSlice(rows, lo, hi, i.value + 1, j - lo);
    }
  }

  lemma SliceOfSlice<T>(s: seq<T>, lo: nat, hi: nat, a: nat, b: nat)
    requires lo <= hi <= |s| && a <= b <= hi - lo
    ensures s[lo..hi][a..b] == s[lo + a..lo + b]
  {
    var inner, outer := s[lo..hi][a..b], s[lo + a..lo + b];
    forall k | 0 <= k < b - a ensures inner[k] == outer[k] {
      assert inner[k] == s[lo..hi][a + k] == s[lo + (a + k)];
    }
  }

  lemma {:induction false} PrefixGrows(rows: seq<Row>, m: nat, n: nat, missing: real)
    requires m <= n <= |rows|
    ensures GapsUpTo(rows, m, missing) <= GapsUpTo(rows, n, missing)
    decreases n
  {
    hide GapAt;
    if m < n {
      PrefixGrows(rows, m, n - 1, missing);
    }
  }

  /** `gaps` splits at any verified row: what follows it does not depend on what came before. */
  lemma {:induction false} GapsSplit(rows: seq<Row>, lo: nat, hi: nat, q: nat, n: nat, missing: real)
    requires lo <= q < n <= hi <= |rows| && Verified(rows[q])
    requires forall k :: lo <= k < q ==> !Verified(rows[k])
    ensures GapsUpTo(rows, n, missing) == GapsUpTo(rows, q + 1, missing) + GapsUpTo(rows[lo..hi], n - lo, missing)
    decreases n
  {
    hide GapAt, LastVerified;
    var window := rows[lo..hi];
    var j := n - 1;
    if j == q {
      forall k | 0 <= k < q - lo ensures !Verified(window[k]) {
        assert window[k] == rows[k + lo];
      }
      NoGapsWithout(window, q - lo, missing);
    } else {
      GapsSplit(rows, lo, hi, q, j, missing);
      assert window[q - lo] == rows[q];
      SameGapAt(rows, lo, hi, j, missing);
    }
  }

  lemma {:induction false} NoGapsWithout(rows: seq<Row>, n: nat, missing: real)
    requires n < |rows| && forall k :: 0 <= k < n ==> !Verified(rows[k])
    ensures GapsUpTo(rows, n, missing) == [] && GapsUpTo(rows, n + 1, missing) == []
  {
    if n > 0 {
      NoGapsWithout(rows, n - 1, missing);
    }
  }

  /** A verified row divides the gaps of a timeline exactly. */
  lemma SplitAtVerified(rows: seq<Row>, p: nat, missing: real)
    requires p < |rows| && Verified(rows[p])
    ensures Gaps(rows, missing) == Gaps(rows[..p + 1], missing) + Gaps(rows[p..], missing)
  {
    hide GapsUpTo;
    GapsSplit(rows, p, |rows|, p, |rows|, missing);
    GapsOfPrefix(rows, p + 1, p + 1, missing);
    assert rows[p..|rows|] == rows[p..];
  }

  function FirstVerified(rows: seq<Row>, lo: nat, hi: nat): (q: nat)
    requires lo <= hi <= |rows|
    ensures lo <= q <= hi && forall k :: lo <= k < q ==> !Verified(rows[k])
    ensures q < hi ==> Verified(rows[q])
    decreases hi - lo
  {
    if lo == hi || Verified(rows[lo]) then lo else FirstVerified(rows, lo + 1, hi)
  }

  /** The gaps of any window are a slice of the gaps of the whole timeline. */
  lemma WindowIsSlice(rows: seq<Row>, lo: nat, hi: nat, missing: real) returns (from: nat, to: nat)
    requires lo <= hi <= |rows|
    ensures from <= to <= |Gaps(rows, missing)|
    ensures Gaps(rows[lo..hi], missing) == Gaps(rows, missing)[from..to]
    ensures to == |GapsUpTo(rows, hi, missing)| || (from == to == 0 && forall k :: lo <= k < hi ==> !Verified(rows[k]))
    ensures forall p :: lo <= p < hi && Verified(rows[p]) ==> from <= |GapsUpTo(rows, p + 1, missing)|
    ensures lo == 0 ==> from == 0
  {
    hide GapsUpTo;
    var q := FirstVerified(rows, lo, hi);
    PrefixGrows(rows, hi, |rows|, missing);
    if q == hi {
      from, to := 0, 0;
      if lo < hi {
        var window := rows[lo..hi];
        forall k | 0 <= k < hi - lo ensures !Verified(window[k]) {
          assert window[k] == rows[k + lo];
        }
        NoGapsWithout(window, hi - lo - 1, missing);
      } else {
        assert rows[lo..hi] == [];
        NoGaps(missing);
      }
    } else {
      GapsSplit(rows, lo, hi, q, hi, missing);
      from, to := |GapsUpTo(rows, q + 1, missing)|, |GapsUpTo(rows, hi, missing)|;
      assert Gaps(rows, missing)[..to] == GapsUpTo(rows, hi, missing);
      forall p | lo <= p < hi && Verified(rows[p]) ensures from <= |GapsUpTo(rows, p + 1, missing)| {
        PrefixGrows(rows, q + 1, p + 1, missing);
      }
      if lo == 0 {
        NoGapsWithout(rows, q, missing);
      }
    }
  }

  lemma NoGaps(missing: real)
    ensures Gaps([], missing) == []
  {
  }

  // ----- The durable log

  ghost predicate Knows(log: seq<Gap>, id: GapId) {
    exists k :: 0 <= k < |log| && log[k].id == id
  }

  /** Appends every gap whose identifier the log does not hold yet. */
  ghost function Append(log: seq<Gap>, found: seq<Gap>): seq<Gap>
    decreases |found|
  {
    if found == [] then log
    else
      var before := Append(log, found[..|found| - 1]);
      var gap := found[|found| - 1];
      if Knows(before, gap.id) then before else before + [gap]
  }

  lemma {:induction false} AppendGrows(log: seq<Gap>, found: seq<Gap>)
    ensures log <= Append(log, found)
    ensures forall k :: 0 <= k < |found| ==> Knows(Append(log, found), found[k].id)
    decreases |found|
  {
    if found != [] {
      var less := found[..|found| - 1];
      AppendGrows(log, less);
      var before, after := Append(log, less), Append(log, found);
      KnowsMore(before, after);
      forall k | 0 <= k < |found| ensures Knows(after, found[k].id) {
        if k < |less| {
          assert less[k] == found[k];
        } else if !Knows(before, found[k].id) {
          assert after[|before|] == found[k];
        }
      }
    }
  }

  lemma KnowsMore(log: seq<Gap>, longer: seq<Gap>)
    requires log <= longer
    ensures forall id :: Knows(log, id) ==> Knows(longer, id)
  {
    forall id | Knows(log, id) ensures Knows(longer, id) {
      var k :| 0 <= k < |log| && log[k].id == id;
      assert longer[k].id == id;
    }
  }

  lemma {:induction false} AppendKnown(log: seq<Gap>, found: seq<Gap>)
    requires forall k :: 0 <= k < |found| ==> Knows(log, found[k].id)
    ensures Append(log, found) == log
    decreases |found|
  {
    if found != [] {
      AppendKnown(log, found[..|found| - 1]);
    }
  }

  lemma {:induction false} AppendConcat(log: seq<Gap>, a: seq<Gap>, b: seq<Gap>)
    ensures Append(log, a + b) == Append(Append(log, a), b)
    decreases |b|
  {
    if b == [] {
      assert a + b == a;
    } else {
      assert (a + b)[..|a + b| - 1] == a + b[..|b| - 1];
      AppendConcat(log, a, b[..|b| - 1]);
    }
  }

  /** A slice that starts inside what the log already covers extends the cover to its end. */
  lemma AppendSlice(all: seq<Gap>, n: nat, from: nat, to: nat)
    requires from <= n <= |all| && from <= to <= |all|
    ensures Append(Append([], all[..n]), all[from..to]) == Append([], all[..if n <= to then to else n])
  {
    hide Append, Knows;
    var log := Append([], all[..n]);
    var end := if to <= n then to else n;
    SlicesAreKnown(all, n, from, end);
    AppendKnown(log, all[from..end]);
    if n < to {
      assert all[from..to] == all[from..n] + all[n..to];
      AppendConcat(log, all[from..n], all[n..to]);
      assert all[..to] == all[..n] + all[n..to];
      AppendConcat([], all[..n], all[n..to]);
    }
  }

  lemma SlicesAreKnown(all: seq<Gap>, n: nat, from: nat, end: nat)
    requires from <= end <= n <= |all|
    ensures forall k :: 0 <= k < end - from ==> Knows(Append([], all[..n]), all[from..end][k].id)
  {
    hide Append, Knows;
    AppendGrows([], all[..n]);
    forall k | 0 <= k < end - from ensures Knows(Append([], all[..n]), all[from..end][k].id) {
      assert all[from..end][k] == all[..n][from + k];
    }
  }

  // ----- Runs over overlapping windows

  /** One run of the recorder over the rows `lo..hi` of the timeline; it may die after some of its lines. */
  datatype Attempt = Attempt(lo: nat, hi: nat, diesAfter: Option<nat>)

  /** What `attempt` reads overlaps what is covered at a verified row, or starts at the beginning. */
  ghost predicate Joined(rows: seq<Row>, covered: nat, a: Attempt) {
    && a.lo <= a.hi <= |rows|
    && (a.lo == 0 || exists p :: a.lo <= p < a.hi && p < covered && p < |rows| && Verified(rows[p]))
  }

  function Max(a: nat, b: nat): nat {
    if a <= b then b else a
  }

  function Covers(covered: nat, a: Attempt): nat {
    if a.diesAfter.None? then Max(covered, a.hi) else covered
  }

  ghost predicate AllJoined(rows: seq<Row>, covered: nat, attempts: seq<Attempt>)
    decreases |attempts|
  {
    || attempts == []
    || (Joined(rows, covered, attempts[0])
        && AllJoined(rows, Covers(covered, attempts[0]), attempts[1..]))
  }

  function CoveredBy(covered: nat, attempts: seq<Attempt>): nat
    decreases |attempts|
  {
    if attempts == [] then covered else CoveredBy(Covers(covered, attempts[0]), attempts[1..])
  }

  function Cut<T>(s: seq<T>, n: Option<nat>): seq<T> {
    if n.None? || n.value > |s| then s else s[..n.value]
  }

  ghost function Attempted(rows: seq<Row>, log: seq<Gap>, a: Attempt, missing: real): seq<Gap>
    requires a.lo <= a.hi <= |rows|
  {
    Append(log, Cut(Gaps(rows[a.lo..a.hi], missing), a.diesAfter))
  }

  ghost function RecordAll(rows: seq<Row>, log: seq<Gap>, attempts: seq<Attempt>, missing: real): seq<Gap>
    requires forall k :: 0 <= k < |attempts| ==> attempts[k].lo <= attempts[k].hi <= |rows|
    decreases |attempts|
  {
    if attempts == [] then log
    else RecordAll(rows, Attempted(rows, log, attempts[0], missing), attempts[1..], missing)
  }

  /** The log holds, once each and in order, the first `n` gaps of the timeline, at least those that are covered. */
  ghost predicate Logged(rows: seq<Row>, log: seq<Gap>, covered: nat, n: nat, missing: real) {
    && covered <= |rows|
    && |GapsUpTo(rows, covered, missing)| <= n <= |Gaps(rows, missing)|
    && log == Append([], Gaps(rows, missing)[..n])
  }

  lemma AttemptLogs(rows: seq<Row>, log: seq<Gap>, covered: nat, n: nat, a: Attempt, missing: real) returns (n': nat)
    requires Logged(rows, log, covered, n, missing) && Joined(rows, covered, a)
    ensures n <= n' && Logged(rows, Attempted(rows, log, a, missing), Covers(covered, a), n', missing)
  {
    hide GapsUpTo, Append;
    var all := Gaps(rows, missing);
    var from, to := WindowIsSlice(rows, a.lo, a.hi, missing);
    if a.lo != 0 {
      var p :| a.lo <= p < a.hi && p < covered && p < |rows| && Verified(rows[p]);
      PrefixGrows(rows, p + 1, covered, missing);
    }
    var end := if a.diesAfter.None? || a.diesAfter.value > to - from then to else from + a.diesAfter.value;
    assert Cut(all[from..to], a.diesAfter) == all[from..end];
    AppendSlice(all, n, from, end);
    n' := Max(n, end);
    if a.diesAfter.None? && covered < a.hi {
      if from == to == 0 && to != |GapsUpTo(rows, a.hi, missing)| {
        NothingNew(rows, covered, a.lo, a.hi, missing);
      }
    }
  }

  /** Rows without a verified one close no gap. */
  lemma {:induction false} NothingNew(rows: seq<Row>, covered: nat, lo: nat, hi: nat, missing: real)
    requires covered < hi <= |rows| && lo <= hi
    requires forall k :: lo <= k < hi ==> !Verified(rows[k])
    requires lo <= covered
    ensures GapsUpTo(rows, hi, missing) == GapsUpTo(rows, covered, missing)
    decreases hi
  {
    if covered < hi - 1 {
      NothingNew(rows, covered, lo, hi - 1, missing);
    }
  }

  lemma {:induction false} AttemptsLog(rows: seq<Row>, log: seq<Gap>,
      covered: nat, n: nat, attempts: seq<Attempt>, missing: real)
    returns (n': nat)
    requires Logged(rows, log, covered, n, missing) && AllJoined(rows, covered, attempts)
    ensures forall k :: 0 <= k < |attempts| ==> attempts[k].lo <= attempts[k].hi <= |rows|
    ensures n <= n' && Logged(rows, RecordAll(rows, log, attempts, missing), CoveredBy(covered, attempts), n', missing)
    decreases |attempts|
  {
    hide Logged;
    if attempts == [] {
      n' := n;
    } else {
      var m := AttemptLogs(rows, log, covered, n, attempts[0], missing);
      n' := AttemptsLog(rows, Attempted(rows, log, attempts[0], missing), Covers(covered, attempts[0]),
            m, attempts[1..], missing);
      assert forall k :: 1 <= k < |attempts| ==> attempts[k] == attempts[1..][k - 1];
    }
  }

  /** Over any windows of one timeline, each complete or cut short by a crash, each sharing a verified row with
      what is covered, and covering it all in the end: the log is the gaps of the whole timeline, each once. */
  lemma WindowsLogTheTimeline(rows: seq<Row>, attempts: seq<Attempt>, missing: real)
    requires AllJoined(rows, 0, attempts) && CoveredBy(0, attempts) == |rows|
    ensures forall k :: 0 <= k < |attempts| ==> attempts[k].lo <= attempts[k].hi <= |rows|
    ensures RecordAll(rows, [], attempts, missing) == Append([], Gaps(rows, missing))
  {
    assert Gaps(rows, missing)[..0] == [];
    var n := AttemptsLog(rows, [], 0, 0, attempts, missing);
    assert Gaps(rows, missing)[..|Gaps(rows, missing)|] == Gaps(rows, missing);
  }

  /** Once the timeline is logged, recording any window of it again adds nothing. */
  lemma RecordingAgainAddsNothing(rows: seq<Row>, lo: nat, hi: nat, missing: real)
    requires lo <= hi <= |rows|
    ensures
      var log := Append([], Gaps(rows, missing));
      Append(log, Gaps(rows[lo..hi], missing)) == log
  {
    var all := Gaps(rows, missing);
    var from, to := WindowIsSlice(rows, lo, hi, missing);
    assert all[..|all|] == all;
    AppendSlice(all, |all|, from, to);
  }

  // ----- When the log is literally the gaps

  predicate DistinctIds(found: seq<Gap>) {
    forall i, j :: 0 <= i < j < |found| ==> found[i].id != found[j].id
  }

  /** Nothing is dropped exactly when no two gaps of the timeline have the same identifier. */
  lemma {:induction false} LoggedWholeIffDistinct(found: seq<Gap>)
    ensures Append([], found) == found <==> DistinctIds(found)
    ensures |Append([], found)| <= |found|
    decreases |found|
  {
    if found != [] {
      var less := found[..|found| - 1];
      var gap := found[|found| - 1];
      LoggedWholeIffDistinct(less);
      assert found == less + [gap];
      DistinctOneMore(less, gap);
      var before := Append([], less);
      assert before + [gap] == less + [gap] ==> before == (before + [gap])[..|before|] == less;
    }
  }

  lemma DistinctOneMore(less: seq<Gap>, gap: Gap)
    ensures DistinctIds(less + [gap]) <==> DistinctIds(less) && !Knows(less, gap.id)
  {
    var found := less + [gap];
    if DistinctIds(found) {
      forall i, j | 0 <= i < j < |less| ensures less[i].id != less[j].id {
        assert found[i] == less[i] && found[j] == less[j];
      }
      forall k | 0 <= k < |less| ensures less[k].id != gap.id {
        assert found[k] == less[k] && found[|less|] == gap;
      }
    }
  }

  /** Row `j` closes a gap: its verified neighbour is followed by a failed capture, or by nothing for too long. */
  predicate Closes(rows: seq<Row>, j: nat, missing: real)
    requires j < |rows|
  {
    var i := LastVerified(rows, j);
    && Verified(rows[j]) && i.Some?
    && (CaptureFailed(rows[i.value + 1..j])
        || (i.value + 1 == j && rows[j].captured - rows[i.value].captured > missing))
  }

  /** The capture times of a verified row and of its verified neighbour. */
  function PairOf(rows: seq<Row>, j: nat): GapId
    requires j < |rows| && LastVerified(rows, j).Some?
  {
    GapId(rows[LastVerified(rows, j).value].captured, rows[j].captured)
  }

  /** Two rows that close gaps have the same pair of capture times. */
  predicate SamePair(rows: seq<Row>, i: nat, j: nat, missing: real)
    requires i < |rows| && j < |rows|
  {
    Closes(rows, i, missing) && Closes(rows, j, missing) && PairOf(rows, i) == PairOf(rows, j)
  }

  predicate DistinctPairs(rows: seq<Row>, n: nat, missing: real)
    requires n <= |rows|
  {
    forall i, j :: 0 <= i < j < n ==> !SamePair(rows, i, j, missing)
  }

  ghost predicate Closed(rows: seq<Row>, n: nat, missing: real, id: GapId)
    requires n <= |rows|
  {
    exists j :: 0 <= j < n && Closes(rows, j, missing) && PairOf(rows, j) == id
  }

  lemma GapAtCloses(rows: seq<Row>, j: nat, missing: real)
    requires j < |rows|
    ensures Closes(rows, j, missing) <==> GapAt(rows, j, missing) != []
    ensures Closes(rows, j, missing) ==>
      |GapAt(rows, j, missing)| == 1 && GapAt(rows, j, missing)[0].id == PairOf(rows, j)
  {
    hide LastVerified, CaptureFailed, Reasons;
  }

  lemma {:induction false} PairsAreIds(rows: seq<Row>, n: nat, missing: real)
    requires n <= |rows|
    ensures DistinctIds(GapsUpTo(rows, n, missing)) <==> DistinctPairs(rows, n, missing)
    ensures forall id :: Knows(GapsUpTo(rows, n, missing), id) <==> Closed(rows, n, missing, id)
  {
    hide GapAt, Closes, PairOf, Knows, Closed, DistinctPairs;
    if n == 0 {
      NothingKnown(rows, missing);
    } else {
      var j := n - 1;
      PairsAreIds(rows, j, missing);
      GapAtCloses(rows, j, missing);
      OnePairMore(rows, j, missing);
      var before := GapsUpTo(rows, j, missing);
      if Closes(rows, j, missing) {
        var gap := GapAt(rows, j, missing)[0];
        assert GapAt(rows, j, missing) == [gap];
        DistinctOneMore(before, gap);
        KnowsOneMore(before, gap);
      } else {
        assert before + [] == before;
      }
    }
  }

  lemma NothingKnown(rows: seq<Row>, missing: real)
    ensures forall id :: !Knows([], id) && !Closed(rows, 0, missing, id)
    ensures DistinctPairs(rows, 0, missing)
  {
  }

  lemma OnePairMore(rows: seq<Row>, j: nat, missing: real)
    requires j < |rows|
    ensures DistinctPairs(rows, j + 1, missing) <==>
      DistinctPairs(rows, j, missing) && (Closes(rows, j, missing) ==> !Closed(rows, j, missing, PairOf(rows, j)))
    ensures forall id :: Closed(rows, j + 1, missing, id) <==>
      Closed(rows, j, missing, id) || (Closes(rows, j, missing) && PairOf(rows, j) == id)
  {
    hide LastVerified, CaptureFailed;
    if Closes(rows, j, missing) && Closed(rows, j, missing, PairOf(rows, j)) {
      var i :| 0 <= i < j && Closes(rows, i, missing) && PairOf(rows, i) == PairOf(rows, j);
      assert SamePair(rows, i, j, missing);
    }
  }

  /** Recorded over any covering windows, the log is literally the gaps of the timeline exactly when no two rows
      that close a gap share both capture times with their verified neighbours. */
  lemma RecordsAllExactlyWhen(rows: seq<Row>, attempts: seq<Attempt>, missing: real)
    requires AllJoined(rows, 0, attempts) && CoveredBy(0, attempts) == |rows|
    ensures forall k :: 0 <= k < |attempts| ==> attempts[k].lo <= attempts[k].hi <= |rows|
    ensures RecordAll(rows, [], attempts, missing) == Gaps(rows, missing) <==> DistinctPairs(rows, |rows|, missing)
  {
    hide DistinctPairs, DistinctIds, Append, RecordAll, GapsUpTo;
    WindowsLogTheTimeline(rows, attempts, missing);
    PairsAreIds(rows, |rows|, missing);
    LoggedWholeIffDistinct(Gaps(rows, missing));
  }

  /** Capture times that increase along the verified rows are enough. */
  predicate CapturesIncrease(rows: seq<Row>) {
    forall i, j :: 0 <= i < j < |rows| && Verified(rows[i]) && Verified(rows[j]) ==> rows[i].captured < rows[j].captured
  }

  lemma {:induction false} IncreasingIdsAreDistinct(rows: seq<Row>, n: nat, missing: real)
    requires n <= |rows| && CapturesIncrease(rows)
    ensures DistinctIds(GapsUpTo(rows, n, missing))
    ensures forall k :: 0 <= k < |GapsUpTo(rows, n, missing)| ==>
      forall j :: n <= j < |rows| && Verified(rows[j]) ==> GapsUpTo(rows, n, missing)[k].id.next < rows[j].captured
  {
    if n > 0 {
      IncreasingIdsAreDistinct(rows, n - 1, missing);
    }
  }

  lemma IncreasingCapturesLogAll(rows: seq<Row>, attempts: seq<Attempt>, missing: real)
    requires CapturesIncrease(rows) && AllJoined(rows, 0, attempts) && CoveredBy(0, attempts) == |rows|
    ensures forall k :: 0 <= k < |attempts| ==> attempts[k].lo <= attempts[k].hi <= |rows|
    ensures RecordAll(rows, [], attempts, missing) == Gaps(rows, missing)
  {
    WindowsLogTheTimeline(rows, attempts, missing);
    IncreasingIdsAreDistinct(rows, |rows|, missing);
    LoggedWholeIffDistinct(Gaps(rows, missing));
  }

  /** Without distinct identifiers a gap is lost: a capture time that stalls over two failures is logged once. */
  lemma StalledCaptureTimeLosesGap()
    ensures
      var seen := Row(0.0, true, true, Some(0.0), None, "ok");
      var failed := Row(0.0, false, false, None, None, "capture_failed");
      var found := Gaps([seen, failed, seen, failed, seen], 60.0);
      |found| == 2 && |Append([], found)| == 1
  {
    hide LastVerified, GapBetween;
    var seen := Row(0.0, true, true, Some(0.0), None, "ok");
    var failed := Row(0.0, false, false, None, None, "capture_failed");
    var rows := [seen, failed, seen, failed, seen];
    assert rows[1..2] == [failed] && rows[3..4] == [failed];
    var gap := GapBetween(seen, [failed], seen, 60.0);
    NoGapsWithout(rows, 0, 60.0);
    ClosesGap(rows, 0, 2, 60.0);
    ClosesGap(rows, 2, 4, 60.0);
    assert GapsUpTo(rows, 2, 60.0) == [];
    assert GapsUpTo(rows, 3, 60.0) == gap;
    assert GapsUpTo(rows, 4, 60.0) == gap;
    assert GapsUpTo(rows, 5, 60.0) == gap + gap;
    SameGapTwice(seen, failed, 60.0);
  }

  lemma ClosesGap(rows: seq<Row>, i: nat, j: nat, missing: real)
    requires i < j < |rows| && Verified(rows[i]) && Verified(rows[j])
    requires forall k :: i < k < j ==> !Verified(rows[k])
    ensures GapAt(rows, j, missing) == GapBetween(rows[i], rows[i + 1..j], rows[j], missing)
  {
    hide GapBetween;
    assert LastVerified(rows, j) == Some(i);
  }

  lemma SameGapTwice(seen: Row, failed: Row, missing: real)
    requires Verified(seen) && !failed.captureOk
    ensures
      var gap := GapBetween(seen, [failed], seen, missing);
      |gap + gap| == 2 && |Append([], gap + gap)| == 1
  {
    var gap := GapBetween(seen, [failed], seen, missing);
    assert [failed][0] == failed;
    assert gap == [gap[0]];
    AppendConcat([], gap, gap);
    AppendGrows([], gap);
    assert Append([], []) == [] && gap[..0] == [];
    AppendKnown(Append([], gap), gap);
  }

  // ----- The program

  class Recorder {
    var output: seq<Gap>

    constructor ()
      ensures output == []
    {
      output := [];
    }

    method KnownIds() returns (known: set<GapId>)
      ensures forall id :: id in known <==> Knows(output, id)
    {
      known := {};
      for k := 0 to |output|
        invariant forall id :: id in known <==> Knows(output[..k], id)
      {
        assert output[..k + 1] == output[..k] + [output[k]];
        KnowsOneMore(output[..k], output[k]);
        known := known + {output[k].id};
      }
      assert output[..|output|] == output;
    }

    /** One run over a window; `diesAfter` is where a crash cuts it short, counted in gaps seen. */
    method Record(rows: seq<Row>, missing: real, diesAfter: Option<nat>) returns (added: nat)
      modifies this
      ensures output == Append(old(output), Cut(Gaps(rows, missing), diesAfter))
      ensures added == |output| - |old(output)|
    {
      var known := KnownIds();
      var found := FindGaps(rows, missing);
      var all := Cut(found, diesAfter);
      added := 0;
      assert all[..0] == [];
      for k := 0 to |all|
        invariant output == Append(old(output), all[..k])
        invariant forall id :: id in known <==> Knows(output, id)
        invariant added == |output| - |old(output)|
      {
        assert all[..k + 1][..k] == all[..k];
        if all[k].id !in known {
          KnowsOneMore(output, all[k]);
          output := output + [all[k]];
          known := known + {all[k].id};
          added := added + 1;
        }
      }
      assert all[..|all|] == all;
    }
  }

  lemma KnowsOneMore(log: seq<Gap>, gap: Gap)
    ensures forall id :: Knows(log + [gap], id) <==> Knows(log, id) || id == gap.id
  {
    var longer := log + [gap];
    assert longer[|log|] == gap;
    KnowsMore(log, longer);
  }
}
