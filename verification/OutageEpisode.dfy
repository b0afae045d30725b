/** The anchor observer's outage episodes (ops/scripts/persistent_tcp_anchor_observer.py): which probes make an
    outage, how the episode state follows them, and which durable states the loader takes back.
 */
module OutageEpisode {
  import opened Options

  // ----- Health of one payload

  datatype Name = CloudflareV4 | CloudflareV6 | GoogleV4 | GoogleV6 | Unexpected

  const EXPECTED := {CloudflareV4, CloudflareV6, GoogleV4, GoogleV6}

  datatype Provider = Cloudflare | Google

  function ProviderOf(n: Name): Provider {
    if n == GoogleV4 || n == GoogleV6 then Google else Cloudflare
  }

  /** `ok` is None when the probe carries no boolean; `reconnected` when a reconnect after the failure worked. */
  datatype Probe = Probe(name: Name, ok: Option<bool>, reconnected: bool)

  /** `probes` is None for anything but a list of records; `observed` for a time that does not read. */
  datatype Payload = Payload(probes: Option<seq<Probe>>, observed: Option<int>)

  datatype Health = UP | DOWN | UNKNOWN

  function Names(probes: seq<Probe>): set<Name> {
    set k | 0 <= k < |probes| :: probes[k].name
  }

  predicate Good(p: Probe) {
    p.ok == Some(true) || p.reconnected
  }

  predicate WellFormed(probes: seq<Probe>) {
    |probes| == 4 && Names(probes) == EXPECTED && forall k :: 0 <= k < 4 ==> probes[k].ok.Some?
  }

  function GoodProviders(probes: seq<Probe>): set<Provider> {
    set k | 0 <= k < |probes| && Good(probes[k]) :: ProviderOf(probes[k].name)
  }

  function ProbeHealth(p: Payload): Health {
    if p.probes.None? || !WellFormed(p.probes.value) then UNKNOWN
    else if GoodProviders(p.probes.value) == {Cloudflare, Google} then UP
    else if GoodProviders(p.probes.value) == {} then DOWN
    else UNKNOWN
  }

  /** The anchor of that name answered, directly or after a reconnect. */
  predicate Answered(probes: seq<Probe>, n: Name) {
    exists k :: 0 <= k < |probes| && probes[k].name == n && (probes[k].ok == Some(true) || probes[k].reconnected)
  }

  /** A payload with one boolean answer of each of the four anchors. */
  predicate CoversAnchors(p: Payload) {
    && p.probes.Some? && |p.probes.value| == 4
    && (forall k :: 0 <= k < 4 ==> p.probes.value[k].ok.Some?)
    && (forall n :: n in EXPECTED ==> exists k :: 0 <= k < 4 && p.probes.value[k].name == n)
    && (forall k :: 0 <= k < 4 ==> p.probes.value[k].name in EXPECTED)
  }

  /** DOWN needs all four anchors observed and silent; UP needs one answer from each provider; any other payload, and
      any that does not cover the anchors, says nothing. */
  lemma HealthByAnchors(p: Payload)
    ensures ProbeHealth(p) == DOWN <==>
      && CoversAnchors(p)
      && forall k :: 0 <= k < 4 ==> p.probes.value[k].ok != Some(true) && !p.probes.value[k].reconnected
    ensures ProbeHealth(p) == UP <==>
      && CoversAnchors(p)
      && var s := p.probes.value;
         && (Answered(s, CloudflareV4) || Answered(s, CloudflareV6)) && (Answered(s, GoogleV4) || Answered(s, GoogleV6))
    ensures !CoversAnchors(p) ==> ProbeHealth(p) == UNKNOWN
  {
    CoversIsWellFormed(p);
    if CoversAnchors(p) {
      var s := p.probes.value;
      ProviderAnswered(s, Cloudflare, CloudflareV4, CloudflareV6);
      ProviderAnswered(s, Google, GoogleV4, GoogleV6);
      assert GoodProviders(s) == {Cloudflare, Google} <==> Cloudflare in GoodProviders(s) && Google in GoodProviders(s);
      assert GoodProviders(s) == {} <==> Cloudflare !in GoodProviders(s) && Google !in GoodProviders(s);
    }
  }

  lemma CoversIsWellFormed(p: Payload)
    ensures CoversAnchors(p) <==> p.probes.Some? && WellFormed(p.probes.value)
  {
    if p.probes.Some? && |p.probes.value| == 4 {
      var s := p.probes.value;
      if CoversAnchors(p) {
        assert Names(s) == EXPECTED;
      }
      assert forall k :: 0 <= k < 4 ==> s[k].name in Names(s);
    }
  }

  lemma ProviderAnswered(s: seq<Probe>, provider: Provider, a: Name, b: Name)
    requires forall k :: 0 <= k < |s| ==> (ProviderOf(s[k].name) == provider <==> s[k].name == a || s[k].name == b)
    ensures provider in GoodProviders(s) <==> Answered(s, a) || Answered(s, b)
  {
  }

  // ----- The episode state

  /** The digest that names an episode is taken to be injective. */
  datatype EpisodeId = EpisodeId(boot: string, sequence: int, observed: Option<int>)

  datatype Progress = ACTIVE | RECOVERED

  datatype Episode = Episode(
    id: EpisodeId, sequence: int, boot: string, progress: Progress,
    started: Option<int>, lastDown: Option<int>, recovered: Option<Option<int>>)

  datatype State = State(boot: string, sequence: int, active: Option<Episode>, lastCompleted: Option<Episode>)

  function Empty(boot: string): State {
    State(boot, 0, None, None)
  }

  predicate ValidEpisode(e: Episode, boot: string, completed: bool) {
    && e.boot == boot && e.sequence >= 1
    && (e.progress == ACTIVE <==> e.recovered.None?)
    && (e.progress == RECOVERED <==> completed)
    && e.started.Some? && e.lastDown.Some? && e.started.value <= e.lastDown.value
    && (e.recovered.Some? ==> e.recovered.value.Some? && e.lastDown.value <= e.recovered.value.value)
  }

  function Highest(s: State): int {
    if s.active.Some? && s.active.value.sequence > 0 then s.active.value.sequence
    else if s.lastCompleted.Some? && s.lastCompleted.value.sequence > 0 then s.lastCompleted.value.sequence
    else 0
  }

  /** What the loader makes of the state file: None is its error. */
  function Load(file: Option<State>, boot: string): Option<State> {
    if file.None? then Some(Empty(boot))
    else
      var s := file.value;
      if s.boot != boot || s.sequence < 0 || (s.active.Some? && s.lastCompleted.Some?) then None
      else if s.active.Some? && !ValidEpisode(s.active.value, boot, false) then None
      else if s.lastCompleted.Some? && !ValidEpisode(s.lastCompleted.value, boot, true) then None
      else if Highest(s) != s.sequence then None
      else Some(s)
  }

  function Opened(s: State, observed: Option<int>): Episode {
    var n := s.sequence + 1;
    Episode(EpisodeId(s.boot, n, observed), n, s.boot, ACTIVE, observed, observed, None)
  }

  function Recovered(e: Episode, observed: Option<int>): Episode {
    e.(progress := RECOVERED, recovered := Some(observed))
  }

  /** An UP that the episode's own times refuse; the update raises and changes nothing. */
  predicate Refused(s: State, health: Health, observed: Option<int>) {
    health == UP && s.active.Some? && !ValidEpisode(Recovered(s.active.value, observed), s.boot, true)
  }

  function Update(s: State, health: Health, observed: Option<int>): State {
    if health == DOWN && s.active.None? then
      s.(sequence := s.sequence + 1, active := Some(Opened(s, observed)), lastCompleted := None)
    else if health == DOWN then s.(active := Some(s.active.value.(lastDown := observed)))
    else if health == UP && s.active.Some? && !Refused(s, health, observed) then
      s.(active := None, lastCompleted := Some(Recovered(s.active.value, observed)))
    else s
  }

  // ----- Runs

  /** One sample of a run; `restarted` when the process was started anew just before it.  A crash before a write is
      a run without that write's sample. */
  datatype Sample = Sample(health: Health, observed: Option<int>, restarted: bool)

  /** The state file, and whether the observer has stopped for good because it could not load it. */
  datatype Life = Life(file: State, stopped: bool)

  predicate Loads(boot: string, file: State) {
    Load(Some(file), boot).Some?
  }

  /** A start loads the file first.  A refused sample ends the process, which is then started again. */
  function LiveOn(boot: string, l: Life, s: Sample): Life {
    if l.stopped || (s.restarted && !Loads(boot, l.file)) then l.(stopped := true)
    else if Refused(l.file, s.health, s.observed) then l.(stopped := !Loads(boot, l.file))
    else l.(file := Update(l.file, s.health, s.observed))
  }

  function Lives(boot: string, trace: seq<Sample>): Life {
    if trace == [] then Life(Empty(boot), false)
    else LiveOn(boot, Lives(boot, trace[..|trace| - 1]), trace[|trace| - 1])
  }

  function After(boot: string, trace: seq<Sample>): State {
    Lives(boot, trace).file
  }

  predicate Stopped(boot: string, trace: seq<Sample>) {
    Lives(boot, trace).stopped
  }

  /** The observer processes sample `k`, and its update raises. */
  predicate RefusedAt(boot: string, trace: seq<Sample>, k: nat)
    requires k < |trace|
  {
    var l := Lives(boot, trace[..k]);
    && !l.stopped && (trace[k].restarted ==> Loads(boot, l.file))
    && Refused(l.file, trace[k].health, trace[k].observed)
  }

  /** Nothing is ever refused: no UP by the update, and no start by the loader. */
  predicate NoneRefused(boot: string, trace: seq<Sample>) {
    !Stopped(boot, trace) && forall k :: 0 <= k < |trace| ==> !RefusedAt(boot, trace, k)
  }

  /** The last health that said anything. */
  function LastKnown(trace: seq<Sample>): Health {
    if trace == [] then UNKNOWN
    else if trace[|trace| - 1].health != UNKNOWN then trace[|trace| - 1].health
    else LastKnown(trace[..|trace| - 1])
  }

  /** The reference: an outage begins at a DOWN whose last known predecessor is not DOWN. */
  function Outages(trace: seq<Sample>): nat {
    if trace == [] then 0
    else
      var before := trace[..|trace| - 1];
      Outages(before) + if trace[|trace| - 1].health == DOWN && LastKnown(before) != DOWN then 1 else 0
  }

  predicate Sound(s: State, boot: string) {
    && s.boot == boot && s.sequence >= 0
    && !(s.active.Some? && s.lastCompleted.Some?)
    && (s.active.None? && s.lastCompleted.None? <==> s.sequence == 0)
    && (s.active.Some? ==>
          var e := s.active.value;
          e.sequence == s.sequence && e.boot == boot && e.progress == ACTIVE && e.recovered.None?
          && e.id == EpisodeId(boot, s.sequence, e.started))
    && (s.lastCompleted.Some? ==>
          s.lastCompleted.value.sequence == s.sequence && ValidEpisode(s.lastCompleted.value, boot, true))
  }

  /** Two times read and are in order. */
  predicate Ordered(start: Option<int>, down: Option<int>) {
    start.Some? && down.Some? && start.value <= down.value
  }

  /** An episode of this boot with that sequence, whose first and last DOWN read in order. */
  predicate Belongs(e: Episode, boot: string, sequence: int) {
    e.boot == boot && e.sequence == sequence >= 1 && Ordered(e.started, e.lastDown)
  }

  /** Exactly which files are taken back, whoever wrote them: those of this boot with no episode and sequence 0, with
      one active episode, or with one that recovered after its last DOWN. */
  lemma TakesBackExactly(s: State, boot: string)
    ensures
      var acceptable :=
        && s.boot == boot
        && if s.active.Some? then
             var e := s.active.value;
             s.lastCompleted.None? && Belongs(e, boot, s.sequence) && e.progress == ACTIVE && e.recovered.None?
           else if s.lastCompleted.Some? then
             var e := s.lastCompleted.value;
             && Belongs(e, boot, s.sequence) && e.progress == RECOVERED
             && e.recovered.Some? && Ordered(e.lastDown, e.recovered.value)
           else s.sequence == 0;
      Load(Some(s), boot) == if acceptable then Some(s) else None
  {
  }

  /** In every run, whatever its times: an active and a completed episode are never both there, and the loader
      takes the file back unchanged exactly when an active episode's times read and are in order. */
  lemma {:induction false} StatesAreSound(boot: string, trace: seq<Sample>)
    ensures
      var s := After(boot, trace);
      && Sound(s, boot)
      && (Load(Some(s), boot) == Some(s) <==>
            (s.active.Some? ==> Ordered(s.active.value.started, s.active.value.lastDown)))
      && (Load(Some(s), boot) == Some(s) || Load(Some(s), boot) == None)
    decreases |trace|
  {
    if trace != [] {
      StatesAreSound(boot, trace[..|trace| - 1]);
    }
  }

  lemma NoneRefusedBefore(boot: string, trace: seq<Sample>)
    requires trace != [] && NoneRefused(boot, trace)
    ensures NoneRefused(boot, trace[..|trace| - 1])
  {
    var before := trace[..|trace| - 1];
    forall k | 0 <= k < |before| ensures !RefusedAt(boot, before, k) {
      assert !RefusedAt(boot, trace, k) && before[..k] == trace[..k];
    }
  }

  /** As long as nothing was refused, the sequence counts the outages and an episode is active during one. */
  lemma {:induction false} SequenceCountsOutages(boot: string, trace: seq<Sample>)
    requires NoneRefused(boot, trace)
    ensures
      var s := After(boot, trace);
      && s.sequence == Outages(trace)
      && (s.active.Some? <==> LastKnown(trace) == DOWN)
      && (s.lastCompleted.Some? <==> LastKnown(trace) != DOWN && Outages(trace) > 0)
    decreases |trace|
  {
    StatesAreSound(boot, trace);
    if trace != [] {
      var before := trace[..|trace| - 1];
      StatesAreSound(boot, before);
      NoneRefusedBefore(boot, trace);
      SequenceCountsOutages(boot, before);
      assert !RefusedAt(boot, trace, |before|);
    }
  }

  // ----- The same in the samples' own readings

  /** An episode's three times read and are in order. */
  predicate InOrder(start: Option<int>, down: Option<int>, up: Option<int>) {
    Ordered(start, down) && Ordered(down, up)
  }

  /** The time of the last DOWN sample. */
  function LastDownAt(trace: seq<Sample>): Option<int> {
    if trace == [] then None
    else if trace[|trace| - 1].health == DOWN then trace[|trace| - 1].observed
    else LastDownAt(trace[..|trace| - 1])
  }

  /** The time of the DOWN sample that began the last outage. */
  function StartAt(trace: seq<Sample>): Option<int> {
    if trace == [] then None
    else
      var before, last := trace[..|trace| - 1], trace[|trace| - 1];
      if last.health == DOWN && LastKnown(before) != DOWN then last.observed else StartAt(before)
  }

  /** If sample `k` comes during an outage: a restart finds the outage's times in order, and an UP its own too. */
  predicate EndsInOrder(trace: seq<Sample>, k: nat)
    requires k < |trace|
  {
    LastKnown(trace[..k]) == DOWN ==>
      && (trace[k].restarted ==> Ordered(StartAt(trace[..k]), LastDownAt(trace[..k])))
      && (trace[k].health == UP ==> InOrder(StartAt(trace[..k]), LastDownAt(trace[..k]), trace[k].observed))
  }

  predicate AllEndInOrder(trace: seq<Sample>) {
    forall k :: 0 <= k < |trace| ==> EndsInOrder(trace, k)
  }

  /** The position of the DOWN sample that opened the episode still open: an UP closes it only when its reading, the
      last DOWN's and the opening DOWN's are in order. */
  function OpenSince(trace: seq<Sample>): (since: Option<nat>)
    ensures since.Some? ==> since.value < |trace|
  {
    if trace == [] then None
    else
      var before, last := trace[..|trace| - 1], trace[|trace| - 1];
      var open := OpenSince(before);
      if last.health == DOWN && open.None? then Some(|before|)
      else if last.health == UP && open.Some?
        && InOrder(trace[open.value].observed, LastDownAt(before), last.observed) then None
      else open
  }

  /** No episode is open, or its opening DOWN and the last DOWN read in order. */
  predicate OpenInOrder(trace: seq<Sample>) {
    OpenSince(trace).Some? ==> Ordered(trace[OpenSince(trace).value].observed, LastDownAt(trace))
  }

  /** An UP that comes while an episode is open and cannot close it. */
  predicate RefusedUp(trace: seq<Sample>, k: nat)
    requires k < |trace|
  {
    var open := OpenSince(trace[..k]);
    && trace[k].health == UP && open.Some?
    && !InOrder(trace[open.value].observed, LastDownAt(trace[..k]), trace[k].observed)
  }

  /** A restart or an UP finds the opening and the last DOWN of the open episode out of order. */
  predicate StopsAt(trace: seq<Sample>, k: nat)
    requires k < |trace|
  {
    !OpenInOrder(trace[..k]) && (trace[k].restarted || trace[k].health == UP)
  }

  ghost predicate StopsSomewhere(trace: seq<Sample>) {
    exists k :: 0 <= k < |trace| && StopsAt(trace, k)
  }

  lemma StopsOneMore(trace: seq<Sample>)
    requires trace != []
    ensures StopsSomewhere(trace) <==> StopsSomewhere(trace[..|trace| - 1]) || StopsAt(trace, |trace| - 1)
  {
    var before := trace[..|trace| - 1];
    forall k | 0 <= k < |before| ensures StopsAt(before, k) == StopsAt(trace, k) {
      assert before[..k] == trace[..k];
    }
  }

  /** The file agrees with the samples' readings. */
  predicate Follows(s: State, trace: seq<Sample>) {
    && (s.active.Some? <==> OpenSince(trace).Some?)
    && (s.active.Some? ==>
          s.active.value.started == trace[OpenSince(trace).value].observed
          && s.active.value.lastDown == LastDownAt(trace))
  }

  /** The run from its samples alone: the observer can never start again exactly when a restart or an UP found the
      open episode out of order; until then the file follows the readings, and after that it does not load. */
  lemma {:induction false} RunFollowsReadings(boot: string, trace: seq<Sample>)
    ensures Stopped(boot, trace) <==> StopsSomewhere(trace)
    ensures if Stopped(boot, trace) then !Loads(boot, After(boot, trace)) else Follows(After(boot, trace), trace)
    decreases |trace|
  {
    StatesAreSound(boot, trace);
    if trace != [] {
      var before := trace[..|trace| - 1];
      StatesAreSound(boot, before);
      RunFollowsReadings(boot, before);
      StopsOneMore(trace);
      if !Stopped(boot, before) {
        assert Loads(boot, After(boot, before)) <==> OpenInOrder(before);
      }
    }
  }

  lemma RefusedByReadings(boot: string, trace: seq<Sample>, k: nat)
    requires k < |trace| && !Stopped(boot, trace[..k])
    ensures RefusedAt(boot, trace, k) <==>
      RefusedUp(trace, k) && (trace[k].restarted ==> OpenInOrder(trace[..k]))
    ensures LiveOn(boot, Lives(boot, trace[..k]), trace[k]).stopped <==> StopsAt(trace, k)
  {
    StatesAreSound(boot, trace[..k]);
    RunFollowsReadings(boot, trace[..k]);
  }

  /** Exactly when the loader takes the file of a run back: no restart or UP ever found the open episode out of
      order, and it is not out of order now. */
  lemma LoadsExactlyWhen(boot: string, trace: seq<Sample>)
    ensures
      Load(Some(After(boot, trace)), boot) == Some(After(boot, trace)) <==>
        (forall k :: 0 <= k < |trace| ==> !StopsAt(trace, k)) && OpenInOrder(trace)
  {
    StatesAreSound(boot, trace);
    RunFollowsReadings(boot, trace);
  }

  /** Exactly when the observer can never start again: its file stays as it is for every further sample. */
  lemma {:induction false} NeverStartsExactlyWhen(boot: string, trace: seq<Sample>, more: seq<Sample>)
    ensures Stopped(boot, trace) <==> exists k :: 0 <= k < |trace| && StopsAt(trace, k)
    ensures Stopped(boot, trace) ==>
      Lives(boot, trace + more) == Lives(boot, trace) && Load(Some(After(boot, trace)), boot) == None
    decreases |more|
  {
    RunFollowsReadings(boot, trace);
    StatesAreSound(boot, trace);
    if more == [] {
      assert trace + more == trace;
    } else {
      NeverStartsExactlyWhen(boot, trace, more[..|more| - 1]);
      assert (trace + more)[..|trace + more| - 1] == trace + more[..|more| - 1];
    }
  }

  /** While every outage so far was in order, what is open is the last outage. */
  lemma {:induction false} OpenIsLastOutage(trace: seq<Sample>)
    requires AllEndInOrder(trace)
    ensures OpenSince(trace).Some? <==> LastKnown(trace) == DOWN
    ensures OpenSince(trace).Some? ==> trace[OpenSince(trace).value].observed == StartAt(trace)
    decreases |trace|
  {
    if trace != [] {
      var before := trace[..|trace| - 1];
      EndInOrderBefore(trace, |before|);
      OpenIsLastOutage(before);
      assert EndsInOrder(trace, |before|);
    }
  }

  lemma EndInOrderBefore(trace: seq<Sample>, n: nat)
    requires n <= |trace| && forall k :: 0 <= k < n ==> EndsInOrder(trace, k)
    ensures AllEndInOrder(trace[..n])
  {
    forall k | 0 <= k < n ensures EndsInOrder(trace[..n], k) {
      assert EndsInOrder(trace, k) && trace[..n][..k] == trace[..k];
    }
  }

  /** A prefix in order leaves the observer running. */
  lemma OrderedPrefixRuns(boot: string, trace: seq<Sample>, n: nat)
    requires n <= |trace| && forall k :: 0 <= k < n ==> EndsInOrder(trace, k)
    ensures !Stopped(boot, trace[..n])
  {
    RunFollowsReadings(boot, trace[..n]);
    forall k | 0 <= k < n ensures !StopsAt(trace[..n], k) {
      EndInOrderBefore(trace, k);
      OpenIsLastOutage(trace[..k]);
      assert EndsInOrder(trace, k) && trace[..n][..k] == trace[..k];
    }
  }

  /** Exactly when nothing is refused in a run: each restart during an outage finds its first and last DOWN in order,
      and each UP that ends one reads no earlier than the last DOWN, which reads no earlier than the first. */
  lemma NoneRefusedExactlyWhen(boot: string, trace: seq<Sample>)
    ensures NoneRefused(boot, trace) <==> AllEndInOrder(trace)
  {
    assert trace[..|trace|] == trace;
    if AllEndInOrder(trace) {
      OrderedPrefixRuns(boot, trace, |trace|);
      forall k | 0 <= k < |trace| ensures !RefusedAt(boot, trace, k) {
        OrderedPrefixRuns(boot, trace, k);
        EndInOrderBefore(trace, k);
        OpenIsLastOutage(trace[..k]);
        RefusedByReadings(boot, trace, k);
        assert EndsInOrder(trace, k);
      }
    } else {
      var k := FirstOutOfOrder(trace);
      OrderedPrefixRuns(boot, trace, k);
      EndInOrderBefore(trace, k);
      OpenIsLastOutage(trace[..k]);
      RefusedByReadings(boot, trace, k);
      RunFollowsReadings(boot, trace);
    }
  }

  /** In that case the loader takes the file back exactly when an outage still going on reads in order. */
  lemma LoadsAfterOrderedEnds(boot: string, trace: seq<Sample>)
    requires AllEndInOrder(trace)
    ensures
      Load(Some(After(boot, trace)), boot) == Some(After(boot, trace)) <==>
        (LastKnown(trace) == DOWN ==> Ordered(StartAt(trace), LastDownAt(trace)))
  {
    assert trace[..|trace|] == trace;
    StatesAreSound(boot, trace);
    OrderedPrefixRuns(boot, trace, |trace|);
    RunFollowsReadings(boot, trace);
    OpenIsLastOutage(trace);
  }

  lemma FirstOutOfOrder(trace: seq<Sample>) returns (k: nat)
    requires !AllEndInOrder(trace)
    ensures k < |trace| && !EndsInOrder(trace, k) && forall i :: 0 <= i < k ==> EndsInOrder(trace, i)
  {
    k := 0;
    while k < |trace| && EndsInOrder(trace, k)
      invariant 0 <= k <= |trace| && forall i :: 0 <= i < k ==> EndsInOrder(trace, i)
    {
      k := k + 1;
    }
  }

  // ----- Which outages are counted

  /** An outage begins at sample `j`. */
  predicate Begins(trace: seq<Sample>, j: nat)
    requires j < |trace|
  {
    trace[j].health == DOWN && LastKnown(trace[..j]) != DOWN
  }

  /** A refused UP, then nothing known, then a DOWN. */
  predicate Swallows(trace: seq<Sample>, k: nat, j: nat)
    requires k < j < |trace|
  {
    RefusedUp(trace, k) && trace[j].health == DOWN && forall i :: k < i < j ==> trace[i].health == UNKNOWN
  }

  /** An outage that begins after the observer stopped for good, or right after a refused UP. */
  ghost predicate Misses(trace: seq<Sample>, j: nat)
    requires j < |trace|
  {
    && Begins(trace, j)
    && ((exists k :: 0 <= k <= j && StopsAt(trace, k)) || (exists k :: 0 <= k < j && Swallows(trace, k, j)))
  }

  /** An outage begins while the old episode is still open, or after the observer stopped. */
  ghost predicate Uncounted(trace: seq<Sample>, j: nat)
    requires j < |trace|
  {
    Begins(trace, j) && (OpenSince(trace[..j]).Some? || exists k :: 0 <= k <= j && StopsAt(trace, k))
  }

  /** An episode is open as soon as the last known sample is DOWN, and one that is open without that has outlived a
      refused UP, with nothing known since. */
  lemma {:induction false} OpenWithoutDown(trace: seq<Sample>) returns (k: nat)
    ensures LastKnown(trace) == DOWN ==> OpenSince(trace).Some?
    ensures OpenSince(trace).Some? && LastKnown(trace) != DOWN ==>
      k < |trace| && RefusedUp(trace, k) && forall i :: k < i < |trace| ==> trace[i].health == UNKNOWN
    decreases |trace|
  {
    k := 0;
    if trace != [] {
      var before := trace[..|trace| - 1];
      k := OpenWithoutDown(before);
      if trace[|trace| - 1].health == UP {
        k := |before|;
      } else if OpenSince(trace).Some? && LastKnown(trace) != DOWN {
        assert before[..k] == trace[..k];
      }
    }
  }

  lemma {:induction false} RefusedUpStaysOpen(trace: seq<Sample>, k: nat)
    requires k < |trace| && RefusedUp(trace, k) && forall i :: k < i < |trace| ==> trace[i].health == UNKNOWN
    ensures OpenSince(trace).Some? && LastKnown(trace) == UP
    decreases |trace|
  {
    var before := trace[..|trace| - 1];
    if k < |before| {
      assert before[..k] == trace[..k];
      RefusedUpStaysOpen(before, k);
    }
  }

  lemma UncountedIsMissed(trace: seq<Sample>, j: nat)
    requires j < |trace|
    ensures Uncounted(trace, j) <==> Misses(trace, j)
  {
    hide StopsAt;
    if Begins(trace, j) && OpenSince(trace[..j]).Some? {
      var k := OpenWithoutDown(trace[..j]);
      assert trace[..j][..k] == trace[..k];
      assert Swallows(trace, k, j);
    }
    if k :| 0 <= k < j && Swallows(trace, k, j) {
      assert trace[..j][..k] == trace[..k];
      RefusedUpStaysOpen(trace[..j], k);
    }
  }

  ghost predicate MissesNone(trace: seq<Sample>) {
    forall j :: 0 <= j < |trace| ==> !Misses(trace, j)
  }

  /** The sequence never counts more outages than there are, and it counts them all exactly when none begins right
      after a refused UP or after the observer stopped for good. */
  lemma SequenceCountsExactlyWhen(boot: string, trace: seq<Sample>)
    ensures After(boot, trace).sequence <= Outages(trace)
    ensures After(boot, trace).sequence == Outages(trace) <==> MissesNone(trace)
  {
    hide Uncounted, Misses;
    CountsUnlessUncounted(boot, trace);
    forall j | 0 <= j < |trace| ensures Uncounted(trace, j) <==> Misses(trace, j) {
      UncountedIsMissed(trace, j);
    }
  }

  lemma {:induction false} CountsUnlessUncounted(boot: string, trace: seq<Sample>)
    ensures After(boot, trace).sequence <= Outages(trace)
    ensures After(boot, trace).sequence == Outages(trace) <==> forall j :: 0 <= j < |trace| ==> !Uncounted(trace, j)
    decreases |trace|
  {
    if trace != [] {
      hide Uncounted;
      var n := |trace| - 1;
      var before := trace[..n];
      CountsUnlessUncounted(boot, before);
      forall j | 0 <= j < n ensures Uncounted(before, j) == Uncounted(trace, j) {
        UncountedBefore(trace, j);
      }
      OneMoreSample(boot, trace);
    }
  }

  lemma UncountedBefore(trace: seq<Sample>, j: nat)
    requires j < |trace| - 1
    ensures Uncounted(trace[..|trace| - 1], j) == Uncounted(trace, j)
  {
    var before := trace[..|trace| - 1];
    forall k | 0 <= k <= j ensures StopsAt(before, k) == StopsAt(trace, k) && before[..k] == trace[..k] {
      assert before[..k] == trace[..k];
    }
  }

  /** The last sample adds to the sequence exactly when it begins an outage that is counted. */
  lemma OneMoreSample(boot: string, trace: seq<Sample>)
    requires trace != []
    ensures
      var n := |trace| - 1;
      After(boot, trace).sequence ==
        After(boot, trace[..n]).sequence + if Begins(trace, n) && !Uncounted(trace, n) then 1 else 0
  {
    hide StopsAt;
    var n := |trace| - 1;
    var before := trace[..n];
    RunFollowsReadings(boot, before);
    var k := OpenWithoutDown(before);
    forall i | 0 <= i < n ensures StopsAt(before, i) == StopsAt(trace, i) {
      SameStop(trace, i);
    }
    if !Stopped(boot, before) {
      RefusedByReadings(boot, trace, n);
    }
  }

  lemma SameStop(trace: seq<Sample>, i: nat)
    requires i < |trace| - 1
    ensures StopsAt(trace[..|trace| - 1], i) == StopsAt(trace, i)
  {
    assert trace[..|trace| - 1][..i] == trace[..i];
  }

  // ----- Clocks

  predicate Nondecreasing(trace: seq<Sample>) {
    && (forall k :: 0 <= k < |trace| ==> trace[k].observed.Some?)
    && (forall i, j :: 0 <= i < j < |trace| ==> trace[i].observed.value <= trace[j].observed.value)
  }

  predicate TimesBy(s: State, now: int) {
    s.active.Some? ==>
      var e := s.active.value;
      e.started.Some? && e.lastDown.Some? && e.started.value <= e.lastDown.value <= now
  }

  /** On times that never go back nothing is refused and the loader takes every file back unchanged. */
  lemma {:induction false} OrderedTimesAreAccepted(boot: string, trace: seq<Sample>)
    requires Nondecreasing(trace)
    ensures NoneRefused(boot, trace) && Load(Some(After(boot, trace)), boot) == Some(After(boot, trace))
    ensures trace != [] ==> TimesBy(After(boot, trace), trace[|trace| - 1].observed.value)
    decreases |trace|
  {
    StatesAreSound(boot, trace);
    if trace != [] {
      var before := trace[..|trace| - 1];
      StatesAreSound(boot, before);
      OrderedTimesAreAccepted(boot, before);
      forall k | 0 <= k < |trace| ensures !RefusedAt(boot, trace, k) {
        assert trace[..k] == if k < |before| then before[..k] else before;
        if k < |before| {
          assert !RefusedAt(boot, before, k);
        }
      }
    }
  }

  /** The main result: over any run with readable times that never go back. */
  lemma EpisodesFollowOutages(boot: string, trace: seq<Sample>)
    requires Nondecreasing(trace)
    ensures
      var s := After(boot, trace);
      && s.sequence == Outages(trace)
      && (s.active.Some? <==> LastKnown(trace) == DOWN)
      && !(s.active.Some? && s.lastCompleted.Some?)
      && Load(Some(s), boot) == Some(s) && !Stopped(boot, trace)
  {
    OrderedTimesAreAccepted(boot, trace);
    SequenceCountsOutages(boot, trace);
    StatesAreSound(boot, trace);
  }

  function At(health: Health, time: int): Sample {
    Sample(health, Some(time), false)
  }

  /** A clock that steps back breaks both halves: an UP is refused, so the next outage is not counted, and a DOWN
      leaves a file that the loader refuses. */
  lemma ClockStepsBack(boot: string)
    ensures
      var lost := [At(DOWN, 10), At(UP, 5), At(DOWN, 6)];
      After(boot, lost).sequence == 1 && Outages(lost) == 2 && Load(Some(After(boot, lost)), boot) == None
      && !Stopped(boot, lost)
  {
    var a, b, c := At(DOWN, 10), At(UP, 5), At(DOWN, 6);
    assert [a, b, c][..2] == [a, b] && [a, b][..1] == [a] && [a][..0] == [];
    var l0 := Life(Empty(boot), false);
    assert Lives(boot, []) == l0;
    var l1 := LiveOn(boot, l0, a);
    assert Lives(boot, [a]) == l1;
    assert Lives(boot, [a, b]) == LiveOn(boot, l1, b) == l1;
    assert Lives(boot, [a, b, c]) == LiveOn(boot, l1, c);
    assert Outages([a]) == 1 && LastKnown([a]) == DOWN;
    assert Outages([a, b]) == 1 && LastKnown([a, b]) == UP;
  }

  /** And it can stop the observer for good: the UP meets a file that no longer loads, and the outage that follows
      is never seen, although a DOWN as late as that would have put the file in order. */
  lemma ClockStepsBackForGood(boot: string)
    ensures
      var lost := [At(DOWN, 10), At(DOWN, 6), At(UP, 20), At(DOWN, 21)];
      && Stopped(boot, lost) && After(boot, lost).sequence == 1 && Outages(lost) == 2
      && Load(Some(After(boot, lost)), boot) == None
  {
    var a, b, c, d := At(DOWN, 10), At(DOWN, 6), At(UP, 20), At(DOWN, 21);
    var lost := [a, b, c, d];
    assert lost[..3] == [a, b, c] && [a, b, c][..2] == [a, b] && [a, b][..1] == [a] && [a][..0] == [];
    var l0 := Life(Empty(boot), false);
    assert Lives(boot, []) == l0;
    var l1 := LiveOn(boot, l0, a);
    assert Lives(boot, [a]) == l1;
    var l2 := LiveOn(boot, l1, b);
    assert Lives(boot, [a, b]) == l2;
    assert !Loads(boot, l2.file);
    assert Lives(boot, [a, b, c]) == l2.(stopped := true);
    assert Lives(boot, lost) == l2.(stopped := true);
    assert Outages([a]) == 1 && LastKnown([a]) == DOWN;
    assert Outages([a, b]) == 1 && LastKnown([a, b]) == DOWN;
    assert Outages([a, b, c]) == 1 && LastKnown([a, b, c]) == UP;
  }

  // ----- The program

  class Observer {
    const boot: string
    var sequence: int
    var active: Option<Episode>
    var lastCompleted: Option<Episode>
    // The state file; None before the first write.
    var file: Option<State>

    function View(): State
      reads this
    {
      State(boot, sequence, active, lastCompleted)
    }

    /** Starts on what the loader accepts, as the program does; otherwise it does not start. */
    constructor (file: Option<State>, boot: string)
      requires Load(file, boot).Some?
      ensures View() == Load(file, boot).value && this.file == file
    {
      var s := Load(file, boot).value;
      this.boot, sequence, active, lastCompleted := boot, s.sequence, s.active, s.lastCompleted;
      this.file := file;
    }

    /** One update and, unless it raised, the write of the state before anything is published. */
    method Observe(payload: Payload) returns (raised: bool, episode: Option<Episode>)
      modifies this
      ensures raised <==> old(Refused(View(), ProbeHealth(payload), payload.observed))
      ensures View() == Update(old(View()), ProbeHealth(payload), payload.observed)
      ensures raised ==> View() == old(View()) && file == old(file) && episode.None?
      ensures !raised ==> file == Some(View()) && episode == if active.Some? then active else lastCompleted
    {
      hide ProbeHealth;
      var health := ProbeHealth(payload);
      if health == DOWN {
        if active.None? {
          sequence := sequence + 1;
          active := Some(Episode(EpisodeId(boot, sequence, payload.observed), sequence, boot, ACTIVE,
                                 payload.observed, payload.observed, None));
          lastCompleted := None;
        } else {
          active := Some(active.value.(lastDown := payload.observed));
        }
      } else if health == UP && active.Some? {
        var completed := active.value.(progress := RECOVERED, recovered := Some(payload.observed));
        if !ValidEpisode(completed, boot, true) {
          return true, None;
        }
        active, lastCompleted := None, Some(completed);
      }
      file := Some(State(boot, sequence, active, lastCompleted));
      raised, episode := false, if active.Some? then active else lastCompleted;
    }
  }

  // ----- The program, over restarts

  /** One round: whether the process was started anew before it, and what its probes found. */
  datatype Round = Round(restarted: bool, payload: Payload)

  function Samples(rounds: seq<Round>): (trace: seq<Sample>)
    ensures |trace| == |rounds|
  {
    if rounds == [] then []
    else
      var last := rounds[|rounds| - 1];
      Samples(rounds[..|rounds| - 1]) + [Sample(ProbeHealth(last.payload), last.payload.observed, last.restarted)]
  }

  /** The file as the loader sees it: a missing one is empty. */
  function Durable(file: Option<State>, boot: string): State {
    if file.None? then Empty(boot) else file.value
  }

  /** The observer over any number of processes: each one starts through the loader, a round that raises ends its
      process, and a start that fails ends them all.  Its file and its fate are those of the run. */
  method Serve(boot: string, rounds: seq<Round>) returns (file: Option<State>, stopped: bool)
    ensures Life(Durable(file, boot), stopped) == Lives(boot, Samples(rounds))
  {
    hide ProbeHealth, Update, Refused, Load;
    file, stopped := None, false;
    EmptyLoads(boot);
    var observer := new Observer(file, boot);
    var n := 0;
    while n < |rounds| && !stopped
      invariant 0 <= n <= |rounds|
      invariant Life(Durable(file, boot), stopped) == Lives(boot, Samples(rounds[..n]))
      invariant fresh(observer) && observer.boot == boot
      invariant !stopped ==> observer.file == file && observer.View() == Durable(file, boot)
    {
      ghost var before := Durable(file, boot);
      assert rounds[..n + 1][..n] == rounds[..n];
      assert Samples(rounds[..n + 1])[..n] == Samples(rounds[..n]);
      SavedLoads(file, boot);
      if rounds[n].restarted {
        var loaded := Load(file, boot);
        if loaded.None? {
          stopped := true;
        } else {
          LoadedIsSame(file, boot);
          observer := new Observer(file, boot);
        }
      }
      if !stopped {
        var raised, episode := observer.Observe(rounds[n].payload);
        file := observer.file;
        if raised {
          var loaded := Load(file, boot);
          if loaded.None? {
            stopped := true;
          } else {
            LoadedIsSame(file, boot);
            observer := new Observer(file, boot);
          }
        }
      }
      n := n + 1;
    }
    StoppedStays(boot, Samples(rounds), n);
    SamplesOfPrefix(rounds, n);
    assert n == |rounds| ==> rounds[..n] == rounds;
  }

  lemma EmptyLoads(boot: string)
    ensures Load(None, boot) == Some(Empty(boot))
  {
  }

  lemma SavedLoads(file: Option<State>, boot: string)
    ensures Load(file, boot).Some? <==> Loads(boot, Durable(file, boot))
  {
  }

  lemma LoadedIsSame(file: Option<State>, boot: string)
    ensures Load(file, boot).Some? ==> Load(file, boot) == Some(Durable(file, boot))
  {
  }

  lemma {:induction false} SamplesOfPrefix(rounds: seq<Round>, n: nat)
    requires n <= |rounds|
    ensures Samples(rounds)[..n] == Samples(rounds[..n])
    decreases |rounds|
  {
    if n < |rounds| {
      SamplesOfPrefix(rounds[..|rounds| - 1], n);
      assert rounds[..|rounds| - 1][..n] == rounds[..n];
    } else {
      assert rounds[..n] == rounds;
    }
  }

  lemma {:induction false} StoppedStays(boot: string, trace: seq<Sample>, n: nat)
    requires n <= |trace|
    ensures Lives(boot, trace[..n]).stopped ==> Lives(boot, trace) == Lives(boot, trace[..n])
    decreases |trace|
  {
    if n < |trace| {
      StoppedStays(boot, trace[..|trace| - 1], n);
      assert trace[..|trace| - 1][..n] == trace[..n];
    } else {
      assert trace[..n] == trace;
    }
  }
}
