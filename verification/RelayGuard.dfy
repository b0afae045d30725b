/** The relay guard (ops/relay/relay_guard.py): the owner of forwarding, gated by a lease and fresh input. */
module RelayGuard {
  import opened Options
  import opened RelayLease

  datatype Grant = Grant(target: string, authorityEpoch: string, expiresAt: real)

  datatype Config = Config(key: string, instance: string, grant: Grant, continuous: bool)

  /** One instance of the guard; the projection shown in its status is left out. */
  datatype Instance = Instance(
    config: Config, highwater: int, lease: Option<Lease>, enabled: bool, halted: bool, reason: string,
    inputId: string, lastBytes: int, lastProgress: real, twitchDisabled: bool, firstAttempt: Option<real>,
    lastWall: real, lastElapsed: real, grantDeadline: real)

  function Start(config: Config, highwater: int, progress: real, wall: real, elapsed: real): Instance {
    Instance(config, highwater, None, false, false, "WAITING_FOR_LEASE", "", 0, progress, false, None,
             wall, elapsed, elapsed + config.grant.expiresAt - wall)
  }

  /** Stopping is permanent; the first reason stands. */
  function Stopped(g: Instance, why: string): Instance {
    g.(reason := if g.halted then g.reason else why, halted := true, enabled := false)
  }

  // ----- Accepting a lease

  datatype Request = Request(lease: Option<Body>, signature: Option<Signature>)

  datatype Update = Committed | RefusedByStorage | CommittedThenCrashed

  predicate MatchesGrant(body: Body, config: Config) {
    && Target in body && body[Target] == Text(config.grant.target)
    && AuthorityEpoch in body && body[AuthorityEpoch] == Text(config.grant.authorityEpoch)
    && (!config.continuous ==>
          GrantExpiresAt in body && IsTime(body[GrantExpiresAt])
          && Number(body[GrantExpiresAt]) == config.grant.expiresAt)
  }

  function Judge(g: Instance, request: Request, wall: real, elapsed: real): Admission {
    if g.halted then Rejected(RelayHalted)
    else if request.lease.None? then Rejected(Malformed)
    else if !MatchesGrant(request.lease.value, g.config) then Rejected(GrantMismatch)
    else if request.signature.None? then Rejected(Malformed)
    else Admit(request.lease.value, request.signature.value, g.config.key, g.config.instance, g.highwater,
               wall, elapsed, g.lease, g.config.continuous)
  }

  // ----- One tick

  datatype Connection = Connection(id: string, inboundBytes: int)

  /** One row of the forwarding list; its position names the provider. */
  datatype Destination = Destination(position: int, forwarding: bool, error: bool)

  /** What the API answers: an error, or a value. */
  datatype Reply<T> = Raised | Answer(value: T)

  /** Everything one tick may meet, in the order in which it asks; `readable` is false when a row does not decode. */
  datatype Meets = Meets(
    exited: bool, now: real, wall: real, leaseWall: real,
    online: Reply<bool>, publisher: Reply<Option<Connection>>,
    forwardWall: real, forwardNow: real, enable: Reply<()>, stamp: real,
    destinations: Reply<seq<Destination>>, readable: bool, youtubeNow: real, twitchNow: real, disable: Reply<()>)

  /** The two PATCH requests: forward to every destination, or to the first one only. */
  datatype Patch = Enable | DisableTwitch

  datatype Outcome = Outcome(g: Instance, patches: seq<Patch>, raised: bool)

  function Halt(g: Instance, why: string): Outcome {
    Outcome(Stopped(g, why), [], false)
  }

  function Abs(x: real): real {
    if x < 0.0 then -x else x
  }

  predicate ClockChanged(g: Instance, wall: real, now: real) {
    wall < g.lastWall || Abs((wall - g.lastWall) - (now - g.lastElapsed)) > 2.0
  }

  function Tick(g: Instance, m: Meets): Outcome {
    if g.halted then Outcome(g, [], false)
    else if m.exited then Halt(g, "MEDIAMTX_EXITED")
    else if ClockChanged(g, m.wall, m.now) then Halt(g, "RELAY_CLOCK_CHANGED")
    else
      var timed := g.(lastWall := m.wall, lastElapsed := m.now);
      if !g.config.continuous && m.now >= g.grantDeadline then Halt(timed, "OPERATOR_GRANT_ELAPSED_EXPIRED")
      else if !g.config.continuous && m.wall >= g.config.grant.expiresAt then Halt(timed, "OPERATOR_GRANT_EXPIRED")
      else if g.lease.Some? && !g.lease.value.Valid(m.leaseWall, m.now) then Halt(timed, "LEASE_EXPIRED")
      else ReadInput(timed, m)
  }

  function ReadInput(g: Instance, m: Meets): Outcome {
    if m.online.Raised? then Outcome(g, [], true)
    else if !m.online.value then Gate(g, m)
    else if m.publisher.Raised? then Outcome(g, [], true)
    else if m.publisher.value.None? then Gate(g, m)
    else
      var c := m.publisher.value.value;
      if g.inputId != "" && c.id != g.inputId then Halt(g, "INPUT_INSTANCE_CHANGED")
      else Gate(Pin(g, c, m.now), m)
  }

  function Pin(g: Instance, c: Connection, now: real): Instance {
    var pinned := g.(inputId := c.id);
    if c.inboundBytes > g.lastBytes then pinned.(lastBytes := c.inboundBytes, lastProgress := now) else pinned
  }

  /** Stops on a stale input, or enables forwarding once lease and input both allow it. */
  function Gate(g: Instance, m: Meets): Outcome
    requires m.online.Answer?
  {
    if g.enabled && (!m.online.value || m.now - g.lastProgress > 4.0) then Halt(g, "INPUT_STALE")
    else if !g.enabled && g.lease.Some? && m.online.value && g.lastBytes > 0 && m.now - g.lastProgress < 2.0 then
      if !g.lease.value.Valid(m.forwardWall, m.forwardNow) then Halt(g, "LEASE_EXPIRED_BEFORE_FORWARD")
      else if m.enable.Raised? then Outcome(g, [Enable], true)
      else
        var rest := Watch(g.(enabled := true, reason := "FORWARDING", firstAttempt := Some(m.stamp)), m);
        rest.(patches := [Enable] + rest.patches)
    else Watch(g, m)
  }

  predicate Failing(rows: seq<Destination>, position: int, late: bool) {
    || (exists r :: r in rows && r.position == position && r.error)
    || (late && !exists r :: r in rows && r.position == position && r.forwarding)
  }

  predicate Bound(rows: seq<Destination>) {
    && (forall i, j :: 0 <= i < j < |rows| ==> rows[i].position != rows[j].position)
    && (forall i :: 0 <= i < |rows| ==> rows[i].position == 1 || rows[i].position == 2)
  }

  /** While forwarding: a failing YouTube stops the relay, a failing Twitch is disabled once. */
  function Watch(g: Instance, m: Meets): Outcome {
    if !g.enabled then Outcome(g, [], false)
    else if m.destinations.Raised? then Outcome(g, [], true)
    else if !Bound(m.destinations.value) then Halt(g, "FORWARD_PROVIDER_BINDING_INVALID")
    else if !m.readable || g.firstAttempt.None? then Outcome(g, [], true)
    else
      var rows := m.destinations.value;
      var since := g.firstAttempt.value;
      if Failing(rows, 1, m.youtubeNow - since > 15.0) then Halt(g, "YOUTUBE_FORWARD_FAILED")
      else if !g.twitchDisabled && Failing(rows, 2, m.twitchNow - since > 15.0) then
        if m.disable.Raised? then Outcome(g, [DisableTwitch], true)
        else Outcome(g.(twitchDisabled := true), [DisableTwitch], false)
      else Outcome(g, [], false)
  }

  // ----- Runs: instances come and go, the highwater row stays

  /** One durable commit of a sequence, with the lease that it admitted and the clocks it was admitted at. */
  datatype Consumed = Consumed(boot: nat, config: Config, body: Body, lease: Lease, wall: real, elapsed: real)

  /** `row` is the durable highwater, `boots` numbers the instances, `failing` marks a tick that raised and
      whose stop has not run yet, `used` are all commits ever and `sent` the PATCHes of this instance. */
  datatype World = World(row: int, boots: nat, live: Option<Instance>, failing: bool,
      used: seq<Consumed>, sent: seq<Patch>)

  const INITIAL := World(0, 0, None, false, [], [])

  datatype Event =
    | Boot(config: Config, progress: real, wall: real, elapsed: real)
    | Accept(request: Request, wall: real, elapsed: real, update: Update)
    | Ticks(meets: Meets)
    | StopAfterFailure
    | OperatorStop
    | Crash

  function AcceptStep(w: World, request: Request, wall: real, elapsed: real, update: Update): World
    requires w.live.Some?
  {
    var g := w.live.value;
    var answer := Judge(g, request, wall, elapsed);
    if answer.Rejected? || request.lease.None? || update == RefusedByStorage then w
    else
      var sequence := answer.lease.terms.sequence;
      var used := w.used + [Consumed(w.boots, g.config, request.lease.value, answer.lease, wall, elapsed)];
      var committed := w.(row := sequence, used := used);
      if update == CommittedThenCrashed then committed.(live := None)
      else committed.(live := Some(g.(highwater := sequence, lease := Some(answer.lease))))
  }

  /** An event that the program cannot take in this state leaves the world as it is. */
  function Step(w: World, e: Event): World {
    match e
    case Boot(config, progress, wall, elapsed) =>
      w.(live := Some(Start(config, w.row, progress, wall, elapsed)),
         failing := false, boots := w.boots + 1, sent := [])
    case Accept(request, wall, elapsed, update) =>
      if w.live.None? then w else AcceptStep(w, request, wall, elapsed, update)
    case Ticks(meets) =>
      if w.live.None? || w.failing then w
      else
        var o := Tick(w.live.value, meets);
        w.(live := Some(o.g), failing := o.raised, sent := w.sent + o.patches)
    case StopAfterFailure =>
      if w.live.None? || !w.failing then w
      else w.(live := Some(Stopped(w.live.value, "CONTROL_API_UNAVAILABLE")), failing := false)
    case OperatorStop =>
      if w.live.None? then w else w.(live := Some(Stopped(w.live.value, "OPERATOR_STOP")))
    case Crash => w.(live := None)
  }

  function Run(w: World, events: seq<Event>): World
    decreases |events|
  {
    if events == [] then w else Run(Step(w, events[0]), events[1..])
  }
}
