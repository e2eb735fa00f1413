/**
 * The session manager: its transition table, recovery with back-off, connection attempts, and the
 * connect requests postponed or bypassed while the session recovers.
 *
 * The pinger, the client and the event loop are modelled by the events they raise. Time is in
 * milliseconds and does not go back; the back-off rate is a real number.
 */
module VpnFsm {
  import opened Prelude
  import Fsm

  const INITIAL_INTERVAL: nat := 1000     // VPN_DEFAULT_INITIAL_RECOVERY_INTERVAL_MS
  const DEFAULT_ATTEMPTS: nat := 30       // VPN_DEFAULT_RECOVERY_ATTEMPTS
  const DEFAULT_CONNECTS: nat := 5        // VPN_DEFAULT_CONNECT_ATTEMPTS_NUM
  const DEFAULT_PERIOD: nat := 10000      // VPN_DEFAULT_RECOVERY_LOCATION_UPDATE_PERIOD_MS
  const DEFAULT_RATE: real := 1.3         // VPN_DEFAULT_RECOVERY_BACKOFF_RATE
  const MAX_SIZE: nat := 0xFFFF_FFFF_FFFF_FFFF

  datatype State = Disconnected | Connecting | Connected | WaitingRecovery | Recovering | WaitingForNetwork

  datatype Event =
    | DoConnect | ClientDisconnected | Shutdown | StartListening | NetworkChange | RetryConnect | PingReady
    | PingFail | ClientReady | AbandonEndpoint | DoRecovery | CompleteRequest

  datatype Guard =
    | Anyway | IsFatalError | FallsIntoRecovery | NoConnectAttempts | NetworkLost | ConnectedOnce
    | NeedToPing | CanComplete | ShouldPostpone | KillSwitchOn

  datatype Action =
    | DoNothing | RunPing | ConnectClient | CompleteConnect | FailConnectWithNoAttempts | Retry
    | PrepareForRecovery | PrepareForRecoveryNc | ReconnectClient | FinalizeRecovery | DoDisconnect | Listen
    | OnWrongConnectState | OnWrongListenState | Complete | Postpone | Reject | BypassUntilConnected

  // What follows a change of state.
  datatype Aftermath = Nothing | RaiseState

  datatype Code =
    | NoError | AuthRequired | LocationUnavailable | CertificateFailed | CertificateNotYetValid
    | InitialConnectFailed | InvalidState | OtherError

  datatype ConnectAction = Default | ForceBypass | ForceRedirect

  datatype Request = Request(id: nat, action: ConnectAction)

  // What became of a request that had been postponed: what the client was told about it, if anything.
  datatype Fate = Completed(action: ConnectAction) | Rejected | Dropped
  datatype Resolved = Resolved(request: Request, fate: Fate)

  // Postponed requests are completed as they asked, or all meet the same fate.
  datatype Ruling = AsAsked | All(fate: Fate)

  datatype Retries = SeveralAttempts(left: nat) | FallIntoRecovery

  // The policy with the attempts left, the attempts allowed, and the retries made.
  datatype Tries = Tries(retries: Retries, allowed: nat, retried: nat)

  datatype Recovery = Recovery(
    start: Option<nat>, attemptStart: nat, interval: nat, toNext: nat, attempts: nat, task: bool)

  // A scheduled attempt: how long it waits, the interval it was scheduled under, and whether recovery had just (re)started.
  datatype Wait = Wait(time: nat, interval: nat, first: bool)

  datatype Vpn = Vpn(
    state: State,
    running: bool,
    killSwitch: bool,
    maxAttempts: nat, rate: real, period: nat,           // the recovery part of the configuration
    pendingError: Code,
    connectedOnce: bool, networkChanged: bool, hasEndpoint: bool,
    recovery: Recovery,
    windowTimer: bool,
    postponed: seq<Request>,
    bypassed: seq<nat>,
    // What has happened:
    everPostponed: seq<Request>,
    resolved: seq<Resolved>,
    waits: seq<Wait>,                                    // scheduled since the recovery record was last reset
    giveUps: nat,                                        // submitted tasks that give the recovery up
    tries: Tries)

  // What comes with an event: its data, and the answers of the environment.
  datatype Input = Input(error: Code, lost: bool, request: Request, immediate: bool, connectError: Code, now: nat)

  // ---- The table ----

  type Row = Fsm.Entry<State, Event, Guard, Action, Aftermath>

  function Go(s: State, e: Event, g: Guard, a: Action, t: State): Row {
    Fsm.Entry(Some(s), e, g, a, Some(t), RaiseState)
  }

  function Stay(s: State, e: Event, g: Guard, a: Action): Row {
    Fsm.Entry(Some(s), e, g, a, None, Nothing)
  }

  function AnyGo(e: Event, g: Guard, a: Action, t: State): Row {
    Fsm.Entry(None, e, g, a, Some(t), RaiseState)
  }

  function AnyStay(e: Event, g: Guard, a: Action): Row {
    Fsm.Entry(None, e, g, a, None, Nothing)
  }

  /** The rows for one event, in the order of the table. */
  function Rows(e: Event): seq<Row> {
    match e
    case DoConnect => [
      Go(Disconnected, e, Anyway, RunPing, Connecting),
      AnyGo(e, Anyway, OnWrongConnectState, Disconnected)]
    case RetryConnect => [Stay(Connecting, e, Anyway, RunPing)]
    case PingReady => [
      Stay(Connecting, e, Anyway, ConnectClient),
      Stay(Recovering, e, Anyway, ReconnectClient)]
    case PingFail => [
      Go(Connecting, e, IsFatalError, CompleteConnect, Disconnected),
      Go(Connecting, e, FallsIntoRecovery, PrepareForRecovery, WaitingRecovery),
      Go(Connecting, e, NoConnectAttempts, CompleteConnect, Disconnected),
      Stay(Connecting, e, Anyway, Retry),
      Go(Recovering, e, IsFatalError, DoDisconnect, Disconnected),
      Go(Recovering, e, Anyway, PrepareForRecovery, WaitingRecovery)]
    case ClientReady => [
      Go(Connecting, e, Anyway, CompleteConnect, Connected),
      Go(Recovering, e, Anyway, FinalizeRecovery, Connected)]
    case ClientDisconnected => [
      Stay(Disconnected, e, Anyway, DoNothing),
      Go(Connecting, e, IsFatalError, CompleteConnect, Disconnected),
      Go(Connecting, e, FallsIntoRecovery, PrepareForRecovery, WaitingRecovery),
      Go(Connecting, e, NoConnectAttempts, CompleteConnect, Disconnected),
      Stay(Connecting, e, Anyway, Retry),
      Go(WaitingRecovery, e, IsFatalError, DoDisconnect, Disconnected),
      Stay(WaitingRecovery, e, Anyway, DoNothing),
      AnyGo(e, IsFatalError, DoDisconnect, Disconnected),
      AnyGo(e, Anyway, PrepareForRecovery, WaitingRecovery)]
    case AbandonEndpoint => [
      Go(Connecting, e, IsFatalError, CompleteConnect, Disconnected),
      Stay(Connecting, e, Anyway, Retry),
      Go(Connected, e, IsFatalError, DoDisconnect, Disconnected),
      Go(Connected, e, Anyway, PrepareForRecovery, WaitingRecovery),
      Go(WaitingRecovery, e, IsFatalError, DoDisconnect, Disconnected),
      Go(Recovering, e, IsFatalError, DoDisconnect, Disconnected),
      Go(Recovering, e, Anyway, PrepareForRecovery, WaitingRecovery)]
    case NetworkChange => [
      Stay(Disconnected, e, Anyway, DoNothing),
      Go(Connecting, e, NoConnectAttempts, FailConnectWithNoAttempts, Disconnected),
      Go(Connecting, e, NetworkLost, DoDisconnect, WaitingForNetwork),
      Go(Connecting, e, FallsIntoRecovery, PrepareForRecovery, WaitingRecovery),
      Stay(Connecting, e, Anyway, Retry),
      Go(Connected, e, NetworkLost, DoDisconnect, WaitingForNetwork),
      Go(Connected, e, Anyway, PrepareForRecoveryNc, WaitingRecovery),
      Go(WaitingRecovery, e, NetworkLost, DoDisconnect, WaitingForNetwork),
      Go(WaitingRecovery, e, Anyway, RunPing, Recovering),
      Go(Recovering, e, NetworkLost, DoDisconnect, WaitingForNetwork),
      Go(Recovering, e, Anyway, PrepareForRecoveryNc, WaitingRecovery),
      Stay(WaitingForNetwork, e, NetworkLost, DoNothing),
      Go(WaitingForNetwork, e, ConnectedOnce, PrepareForRecoveryNc, WaitingRecovery),
      Go(WaitingForNetwork, e, NoConnectAttempts, FailConnectWithNoAttempts, Disconnected),
      Go(WaitingForNetwork, e, Anyway, Retry, Connecting)]
    case DoRecovery => [
      Go(WaitingRecovery, e, NeedToPing, RunPing, Recovering),
      Go(WaitingRecovery, e, Anyway, ConnectClient, Recovering)]
    case Shutdown => [
      Stay(Disconnected, e, Anyway, DoDisconnect),
      AnyGo(e, Anyway, DoDisconnect, Disconnected)]
    case StartListening => [
      Stay(Disconnected, e, Anyway, OnWrongListenState),
      AnyStay(e, Anyway, Listen)]
    case CompleteRequest => [
      AnyStay(e, CanComplete, Complete),
      AnyStay(e, ShouldPostpone, Postpone),
      AnyStay(e, KillSwitchOn, Reject),
      AnyStay(e, Anyway, BypassUntilConnected)]
  }

  // ---- Guards ----

  predicate IsFatal(code: Code) {
    code == AuthRequired || code == LocationUnavailable || code == CertificateFailed || code == CertificateNotYetValid
  }

  predicate Holds(v: Vpn, i: Input, g: Guard) {
    match g
    case Anyway => true
    case IsFatalError => IsFatal(i.error) || IsFatal(v.pendingError)
    case FallsIntoRecovery => v.tries.retries.FallIntoRecovery?
    case NoConnectAttempts => v.tries.retries == SeveralAttempts(0)
    case NetworkLost => i.lost
    case ConnectedOnce => v.connectedOnce
    case NeedToPing => !v.hasEndpoint || v.networkChanged || v.recovery.start.None? || i.now >= v.recovery.start.value + v.period
    case CanComplete =>
      i.request.action == ForceBypass || i.immediate
      || v.state == Connected || v.state == Connecting || v.state == Disconnected || v.state == WaitingForNetwork
    case ShouldPostpone => v.windowTimer
    case KillSwitchOn => v.killSwitch
  }

  // ---- Actions ----

  function NewRecovery(): Recovery { Recovery(None, 0, INITIAL_INTERVAL, 0, 0, false) }

  function ResetRecovery(v: Vpn): Vpn {
    v.(recovery := NewRecovery(), waits := [])
  }

  /** Rounding to the nearest, ties to even, as `std::chrono::round` does. */
  function Round(x: real): (n: nat)
    requires x >= 0.0
  {
    var f := x.Floor;
    if x - f as real < 0.5 || (x - f as real == 0.5 && f % 2 == 0) then f else f + 1
  }

  lemma RoundGrows(n: nat, rate: real)
    requires rate >= 1.0
    ensures n as real * rate >= 0.0 && Round(n as real * rate) >= n
  {
    var x := n as real * rate;
    assert x >= n as real;
    assert x.Floor >= n;
  }

  function NextInterval(n: nat, rate: real): nat {
    if n as real * rate >= 0.0 then Round(n as real * rate) else 0
  }

  lemma IntervalGrows(n: nat, rate: real)
    requires rate >= 1.0
    ensures NextInterval(n, rate) >= n
  {
    RoundGrows(n, rate);
  }

  /** How long the next recovery attempt has to wait. */
  function TimeToNext(r: Recovery, now: nat): nat {
    var elapsed := if r.start.None? || now < r.attemptStart then 0 else now - r.attemptStart;
    if r.interval >= elapsed then r.interval - elapsed else 0
  }

  /** The recovery has taken so long that its times are reset. */
  predicate Late(r: Recovery, now: nat, period: nat) {
    now + TimeToNext(r, now) >= (if r.start.None? then now else r.start.value) + period
  }

  function Rescheduled(r: Recovery, now: nat, rate: real, period: nat): Recovery {
    var wait := TimeToNext(r, now);
    if Late(r, now, period) then Recovery(None, 0, INITIAL_INTERVAL, wait, r.attempts + 1, true)
    else Recovery(Some(if r.start.None? then now else r.start.value), r.attemptStart, NextInterval(r.interval, rate),
                  wait, r.attempts + 1, true)
  }

  /** An attempt is scheduled. */
  function Schedule(v: Vpn, now: nat): Vpn {
    v.(windowTimer := v.windowTimer || v.recovery.start.None?,
       recovery := Rescheduled(v.recovery, now, v.rate, v.period),
       waits := v.waits + [Wait(TimeToNext(v.recovery, now), v.recovery.interval, v.recovery.start.None?)])
  }

  /** `initiate_recovery`: the recovery is given up later if the attempts are used up. */
  function InitiateRecovery(v: Vpn, now: nat): (u: Vpn)
    ensures u.recovery.task || u.giveUps > 0
    ensures u == v.(windowTimer := u.windowTimer, recovery := u.recovery, waits := u.waits, giveUps := u.giveUps)
  {
    if v.recovery.attempts >= v.maxAttempts then v.(giveUps := v.giveUps + 1) else Schedule(v, now)
  }

  function WithError(v: Vpn, code: Code): (u: Vpn)
    ensures u == v.(pendingError := u.pendingError)
  {
    if v.pendingError == NoError && code != NoError then v.(pendingError := code) else v
  }

  /** The error a finished connect leaves behind. */
  function FinalError(pending: Code, code: Code, lastAttempt: bool): Code {
    var error := if pending == NoError then code else pending;
    if error != NoError && !IsFatal(code) && !IsFatal(error) && lastAttempt then InitialConnectFailed else error
  }

  function FinishConnect(v: Vpn, code: Code): Vpn {
    ResetRecovery(v).(pendingError := FinalError(v.pendingError, code, v.tries.retries == SeveralAttempts(0)))
  }

  function StartClient(v: Vpn, error: Code): Vpn { v.(pendingError := error) }

  function ResolveAll(v: Vpn, ruling: Ruling): Vpn {
    v.(postponed := [], resolved := v.resolved + Resolve(v.postponed, ruling))
  }

  function Ruled(request: Request, ruling: Ruling): Resolved {
    Resolved(request, if ruling.AsAsked? then Completed(request.action) else ruling.fate)
  }

  function Resolve(requests: seq<Request>, ruling: Ruling): seq<Resolved> {
    seq(|requests|, i requires 0 <= i < |requests| => Ruled(requests[i], ruling))
  }

  function Ids(requests: seq<Request>): seq<nat> {
    seq(|requests|, i requires 0 <= i < |requests| => requests[i].id)
  }

  function Decrement(n: nat): nat { if n == 0 then MAX_SIZE else n - 1 }

  /** `run_ping`; a pending recovery task is cancelled. */
  function Ping(v: Vpn, now: nat): Vpn {
    v.(pendingError := NoError, hasEndpoint := false,
       recovery := if v.recovery.task then v.recovery.(task := false, attemptStart := now) else v.recovery)
  }

  function RetryOnce(t: Tries): Tries {
    if t.retries.SeveralAttempts? then t.(retries := SeveralAttempts(Decrement(t.retries.left)), retried := t.retried + 1)
    else t
  }

  function Act(v: Vpn, a: Action, i: Input): Vpn {
    match a
    case DoNothing | OnWrongListenState | Listen | Complete | Reject => v
    case RunPing => Ping(v, i.now)
    case ConnectClient | ReconnectClient => StartClient(v, i.connectError)
    case CompleteConnect => FinishConnect(v, i.error)
    case FailConnectWithNoAttempts => FinishConnect(v, InitialConnectFailed)
    case Retry =>
      v.(tries := RetryOnce(v.tries))
    case PrepareForRecovery => WithError(InitiateRecovery(v, i.now), i.error)
    case PrepareForRecoveryNc => InitiateRecovery(v, i.now)
    case FinalizeRecovery => ResolveAll(ResetRecovery(v), AsAsked).(windowTimer := false, bypassed := [])
    case DoDisconnect => ResetRecovery(v)
    case OnWrongConnectState => v.(pendingError := InvalidState)
    case Postpone => v.(postponed := v.postponed + [i.request], everPostponed := v.everPostponed + [i.request])
    case BypassUntilConnected => v.(bypassed := v.bypassed + [i.request.id])
  }

  /** `raise_state`. */
  function Raise(v: Vpn): Vpn {
    v.(pendingError := if v.state == Connected then v.pendingError else NoError,
       connectedOnce := v.connectedOnce || v.state == Connected,
       networkChanged := v.networkChanged && v.state != Disconnected && v.state != Connecting && v.state != Recovering)
  }

  /** What follows the action: the change of state, and telling about it. */
  function Land(u: Vpn, row: Row): (w: Vpn)
    ensures Quiet(u, w) && w.tries == u.tries && w.giveUps == u.giveUps
    ensures w.state == if row.target.Some? then row.target.value else u.state
  {
    var w := u.(state := if row.target.Some? then row.target.value else u.state);
    if row.after == RaiseState then Raise(w) else w
  }

  function Take(v: Vpn, row: Row, i: Input): Vpn {
    Land(Act(v, row.before, i), row)
  }

  /** The row an event takes. */
  function RowFor(v: Vpn, e: Event, i: Input): Option<Row> {
    Fsm.First(Rows(e), v.state, e, (g: Guard) => Holds(v, i, g))
  }

  /** `perform_transition`. */
  function Transition(v: Vpn, e: Event, i: Input): Vpn {
    var row := RowFor(v, e, i);
    if row.None? then v else Take(v, row.value, i)
  }

  // ---- Steps ----

  datatype Step =
    | Connect(attempts: int, several: bool, maxAttempts: nat, rate: real, period: nat, input: Input)
    | Fire(event: Event, input: Input)
    | RecoveryTask(input: Input)
    | GiveUp(input: Input)                // submitted when the recovery attempts are used up
    | WindowExpires
    | Stop

  ghost predicate Enabled(v: Vpn, step: Step) {
    match step
    case Connect(_, _, _, _, _, _) => !v.running
    case RecoveryTask(_) => v.running && v.recovery.task
    case WindowExpires => v.running && v.windowTimer
    case Fire(_, _) => v.running
    case GiveUp(_) => v.running && v.giveUps > 0
    case Stop => true
  }

  function Configure(v: Vpn, step: Step): Vpn
    requires step.Connect?
  {
    var attempts := if step.attempts <= 0 then DEFAULT_CONNECTS else step.attempts;
    v.(running := true,
       maxAttempts := if step.maxAttempts == 0 then DEFAULT_ATTEMPTS else step.maxAttempts,
       rate := if step.rate < 1.0 then DEFAULT_RATE else step.rate,
       period := if step.period == 0 then DEFAULT_PERIOD else step.period,
       tries := Tries(if step.several then SeveralAttempts(Decrement(attempts)) else FallIntoRecovery, attempts, 0))
  }

  /** What the caller of `perform_transition` notes first. */
  function Prepare(v: Vpn, event: Event): (u: Vpn)
    ensures u == v.(networkChanged := u.networkChanged, hasEndpoint := u.hasEndpoint)
  {
    match event
    case NetworkChange => v.(networkChanged := true)
    case PingReady => v.(hasEndpoint := true)
    case PingFail => v.(hasEndpoint := false)
    case _ => v
  }

  function GivenUp(v: Vpn): Vpn {
    ResetRecovery(v).(pendingError := LocationUnavailable, giveUps := if v.giveUps > 0 then v.giveUps - 1 else 0)
  }

  function Next(v: Vpn, step: Step): Vpn {
    match step
    case Connect(_, _, _, _, _, input) => Transition(Configure(v, step), DoConnect, input)
    case Fire(event, input) =>
      Transition(Prepare(v, event), event, input)
    case RecoveryTask(input) =>
      Transition(v.(recovery := v.recovery.(task := false, attemptStart := input.now)), DoRecovery, input)
    case GiveUp(input) => Transition(GivenUp(v), Shutdown, input)
    case WindowExpires =>
      if v.killSwitch then ResolveAll(v, All(Rejected)).(windowTimer := false)
      else ResolveAll(v, All(Completed(ForceBypass))).(windowTimer := false, bypassed := v.bypassed + Ids(v.postponed))
    case Stop =>
      ResolveAll(ResetRecovery(v), All(Dropped))
        .(state := Disconnected, running := false, pendingError := NoError, windowTimer := false, bypassed := [],
          hasEndpoint := false, giveUps := 0)
  }

  // ---- The invariant ----

  function Requests(resolved: seq<Resolved>): seq<Request> {
    seq(|resolved|, i requires 0 <= i < |resolved| => resolved[i].request)
  }

  /** Every request ever postponed has one fate, in order, or is still waiting, and then the timer runs. */
  ghost predicate Accounted(v: Vpn) {
    v.everPostponed == Requests(v.resolved) + v.postponed && (v.postponed != [] ==> v.windowTimer)
  }

  /** A request that asks to be bypassed does not wait, and with the kill switch on nothing else is bypassed. */
  ghost predicate Sealed(v: Vpn) {
    && (forall r | r in v.postponed :: r.action != ForceBypass)
    && (v.killSwitch ==> v.bypassed == [] && forall r | r in v.resolved :: r.fate != Completed(ForceBypass))
  }

  /** Waits stay within their intervals, which back off by the rate and start again when recovery does. */
  ghost predicate Spaced(waits: seq<Wait>, rate: real) {
    && (forall k | 0 <= k < |waits| :: waits[k].time <= waits[k].interval && (waits[k].first ==> waits[k].interval == INITIAL_INTERVAL))
    && (forall k | 0 <= k < |waits| && !waits[k].first :: k > 0 && waits[k].interval == NextInterval(waits[k - 1].interval, rate))
  }

  ghost predicate Paced(v: Vpn) {
    && Spaced(v.waits, v.rate)
    && (v.recovery.start.None? ==> v.recovery.interval == INITIAL_INTERVAL)
    && (v.recovery.start.Some? ==> v.waits != [] && v.recovery.interval == NextInterval(v.waits[|v.waits| - 1].interval, v.rate))
    && (v.waits != [] ==> v.recovery.toNext == v.waits[|v.waits| - 1].time)
  }

  ghost predicate Limited(v: Vpn) {
    && v.recovery.attempts == |v.waits| && (v.running ==> |v.waits| <= v.maxAttempts && v.rate >= 1.0)
    && (!v.running ==> v.recovery == NewRecovery() && v.waits == [])
  }

  ghost predicate Inv(v: Vpn) {
    Accounted(v) && Sealed(v) && Paced(v) && Limited(v)
  }

  ghost predicate Initial(v: Vpn) {
    && v.state == Disconnected && !v.running && v.recovery == NewRecovery() && v.waits == [] && v.giveUps == 0
    && v.postponed == [] && v.everPostponed == [] && v.resolved == [] && v.bypassed == [] && !v.windowTimer
  }

  lemma ResolveAllKeeps(v: Vpn, ruling: Ruling)
    requires Accounted(v)
    ensures Accounted(ResolveAll(v, ruling)) && ResolveAll(v, ruling).postponed == []
  {
    assert Requests(v.resolved + Resolve(v.postponed, ruling)) == Requests(v.resolved) + v.postponed;
  }

  lemma ResolveAllSeals(v: Vpn, ruling: Ruling)
    requires Sealed(v) && (v.killSwitch ==> ruling != All(Completed(ForceBypass)))
    ensures Sealed(ResolveAll(v, ruling))
  {
    var resolved := Resolve(v.postponed, ruling);
    assert forall k | 0 <= k < |resolved| :: v.postponed[k] in v.postponed && resolved[k] == Ruled(v.postponed[k], ruling);
  }

  lemma SpacedMore(waits: seq<Wait>, rate: real, wait: Wait)
    requires Spaced(waits, rate) && wait.time <= wait.interval
    requires if wait.first then wait.interval == INITIAL_INTERVAL
             else waits != [] && wait.interval == NextInterval(waits[|waits| - 1].interval, rate)
    ensures Spaced(waits + [wait], rate)
  {
  }

  lemma ScheduleKeeps(v: Vpn, now: nat)
    requires Inv(v) && v.running && v.recovery.attempts < v.maxAttempts
    ensures Inv(Schedule(v, now))
  {
    SpacedMore(v.waits, v.rate, Wait(TimeToNext(v.recovery, now), v.recovery.interval, v.recovery.start.None?));
  }

  /** A change that the invariant does not look at. */
  ghost predicate Quiet(v: Vpn, d: Vpn) {
    d == v.(state := d.state, tries := d.tries, pendingError := d.pendingError, connectedOnce := d.connectedOnce,
            networkChanged := d.networkChanged, hasEndpoint := d.hasEndpoint, giveUps := d.giveUps)
  }

  lemma QuietKeeps(v: Vpn, d: Vpn)
    requires Inv(v) && Quiet(v, d)
    ensures Inv(d)
  {
  }

  lemma ResetKeeps(v: Vpn)
    requires Inv(v)
    ensures Inv(ResetRecovery(v))
  {
  }

  predicate IsQuiet(a: Action) {
    || a.DoNothing? || a.OnWrongListenState? || a.Listen? || a.Complete? || a.Reject? || a.ConnectClient?
    || a.ReconnectClient? || a.Retry? || a.OnWrongConnectState?
  }

  lemma QuietAct(v: Vpn, a: Action, i: Input)
    requires IsQuiet(a)
    ensures Quiet(v, Act(v, a, i))
  {
  }

  lemma CompleteKeeps(v: Vpn, code: Code)
    requires Inv(v) && v.running
    ensures Inv(FinishConnect(v, code)) && FinishConnect(v, code).running
  {
    ResetKeeps(v);
    QuietKeeps(ResetRecovery(v), FinishConnect(v, code));
  }

  lemma InitiateKeeps(v: Vpn, now: nat)
    requires Inv(v) && v.running
    ensures Inv(InitiateRecovery(v, now)) && InitiateRecovery(v, now).running
  {
    if v.recovery.attempts < v.maxAttempts {
      ScheduleKeeps(v, now);
    } else {
      QuietKeeps(v, InitiateRecovery(v, now));
    }
  }

  lemma WithErrorKeeps(v: Vpn, code: Code)
    requires Inv(v) && v.running
    ensures Inv(WithError(v, code)) && WithError(v, code).running
  {
  }

  lemma PingKeeps(v: Vpn, i: Input)
    requires Inv(v) && v.running
    ensures Inv(Act(v, RunPing, i)) && Act(v, RunPing, i).running
  {
  }

  lemma FinalizeKeeps(v: Vpn, i: Input)
    requires Inv(v) && v.running
    ensures Inv(Act(v, FinalizeRecovery, i)) && Act(v, FinalizeRecovery, i).running
  {
    ResetKeeps(v);
    ResolveAllKeeps(ResetRecovery(v), AsAsked);
    ResolveAllSeals(ResetRecovery(v), AsAsked);
  }

  lemma PostponeKeeps(v: Vpn, i: Input)
    requires Inv(v) && v.running && v.windowTimer && i.request.action != ForceBypass
    ensures Inv(Act(v, Postpone, i)) && Act(v, Postpone, i).running
  {
    assert v.everPostponed + [i.request] == Requests(v.resolved) + (v.postponed + [i.request]);
  }

  lemma BypassKeeps(v: Vpn, i: Input)
    requires Inv(v) && v.running && !v.killSwitch
    ensures Inv(Act(v, BypassUntilConnected, i)) && Act(v, BypassUntilConnected, i).running
  {
  }

  /** Each action keeps the invariant, given what the table's guards say about two of them. */
  lemma ActKeeps(v: Vpn, a: Action, i: Input)
    requires Inv(v) && v.running && (a == Postpone ==> v.windowTimer && i.request.action != ForceBypass) && (a == BypassUntilConnected ==> !v.killSwitch)
    ensures Inv(Act(v, a, i)) && Act(v, a, i).running
  {
    match a
    case RunPing => PingKeeps(v, i);
    case CompleteConnect => CompleteKeeps(v, i.error);
    case FailConnectWithNoAttempts => CompleteKeeps(v, InitialConnectFailed);
    case DoDisconnect => ResetKeeps(v);
    case PrepareForRecovery =>
      InitiateKeeps(v, i.now);
      WithErrorKeeps(InitiateRecovery(v, i.now), i.error);
    case PrepareForRecoveryNc => InitiateKeeps(v, i.now);
    case FinalizeRecovery => FinalizeKeeps(v, i);
    case Postpone => PostponeKeeps(v, i);
    case BypassUntilConnected => BypassKeeps(v, i);
    case _ =>
      QuietAct(v, a, i);
      QuietKeeps(v, Act(v, a, i));
  }

  predicate Plain(a: Action) { a != Postpone && a != BypassUntilConnected }

  lemma RowsArePlain(e: Event, k: nat)
    requires k < |Rows(e)| && e != CompleteRequest
    ensures Plain(Rows(e)[k].before)
  {
  }

  /** The request rows: complete, else postpone, else reject, else bypass. */
  lemma RequestRow(v: Vpn, i: Input)
    ensures var row := RowFor(v, CompleteRequest, i);
      row == Some(if Holds(v, i, CanComplete) then AnyStay(CompleteRequest, CanComplete, Complete)
                  else if v.windowTimer then AnyStay(CompleteRequest, ShouldPostpone, Postpone)
                  else if v.killSwitch then AnyStay(CompleteRequest, KillSwitchOn, Reject)
                  else AnyStay(CompleteRequest, Anyway, BypassUntilConnected))
  {
    Fsm.FirstIs(Rows(CompleteRequest), v.state, CompleteRequest, (g: Guard) => Holds(v, i, g),
                if Holds(v, i, CanComplete) then 0 else if v.windowTimer then 1 else if v.killSwitch then 2 else 3);
  }

  /** The row an event takes, with what is known about its action. */
  lemma TakenRow(v: Vpn, e: Event, i: Input)
    ensures var row := RowFor(v, e, i);
      row.Some? ==>
        && (row.value.before == Postpone ==> v.windowTimer && i.request.action != ForceBypass)
        && (row.value.before == BypassUntilConnected ==> !v.killSwitch)
  {
    var holds := (g: Guard) => Holds(v, i, g);
    var row := Fsm.First(Rows(e), v.state, e, holds);
    if row.Some? {
      if e == CompleteRequest {
        RequestRow(v, i);
      } else {
        var k := Fsm.FirstAt(Rows(e), v.state, e, holds);
        RowsArePlain(e, k);
      }
    }
  }

  lemma TakeKeeps(v: Vpn, row: Row, i: Input)
    requires Inv(v) && v.running
    requires (row.before == Postpone ==> v.windowTimer && i.request.action != ForceBypass) && (row.before == BypassUntilConnected ==> !v.killSwitch)
    ensures Inv(Take(v, row, i)) && Take(v, row, i).running
  {
    ActKeeps(v, row.before, i);
    QuietKeeps(Act(v, row.before, i), Take(v, row, i));
  }

  lemma TransitionKeeps(v: Vpn, e: Event, i: Input)
    requires Inv(v) && v.running
    ensures Inv(Transition(v, e, i)) && Transition(v, e, i).running
  {
    TakenRow(v, e, i);
    var row := RowFor(v, e, i);
    if row.Some? {
      TakeKeeps(v, row.value, i);
    }
  }

  lemma FireKeeps(v: Vpn, e: Event, i: Input)
    requires Inv(v) && v.running
    ensures Inv(Transition(Prepare(v, e), e, i))
  {
    QuietKeeps(v, Prepare(v, e));
    TransitionKeeps(Prepare(v, e), e, i);
  }

  lemma ConnectKeeps(v: Vpn, step: Step)
    requires Inv(v) && !v.running && step.Connect?
    ensures Inv(Next(v, step))
  {
    var u := Configure(v, step);
    assert Inv(u);
    TransitionKeeps(u, DoConnect, step.input);
  }

  lemma TaskKeeps(v: Vpn, i: Input)
    requires Inv(v) && v.running
    ensures Inv(Next(v, RecoveryTask(i))) && Inv(Next(v, GiveUp(i)))
  {
    var u := v.(recovery := v.recovery.(task := false, attemptStart := i.now));
    assert Inv(u);
    TransitionKeeps(u, DoRecovery, i);
    ResetKeeps(v);
    QuietKeeps(ResetRecovery(v), GivenUp(v));
    TransitionKeeps(GivenUp(v), Shutdown, i);
  }

  function WindowRuling(v: Vpn): Ruling { All(if v.killSwitch then Rejected else Completed(ForceBypass)) }

  lemma WindowKeeps(v: Vpn)
    requires Inv(v)
    ensures Inv(Next(v, WindowExpires))
  {
    ResolveAllKeeps(v, WindowRuling(v));
    ResolveAllSeals(v, WindowRuling(v));
  }

  lemma StopKeeps(v: Vpn)
    requires Inv(v)
    ensures Inv(Next(v, Stop))
  {
    ResolveAllKeeps(ResetRecovery(v), All(Dropped));
    ResolveAllSeals(ResetRecovery(v), All(Dropped));
  }

  lemma NextKeeps(v: Vpn, step: Step)
    requires Inv(v) && Enabled(v, step)
    ensures Inv(Next(v, step))
  {
    match step
    case Connect(_, _, _, _, _, _) => ConnectKeeps(v, step);
    case Fire(event, input) => FireKeeps(v, event, input);
    case RecoveryTask(input) => TaskKeeps(v, input);
    case GiveUp(input) => TaskKeeps(v, input);
    case WindowExpires => WindowKeeps(v);
    case Stop => StopKeeps(v);
  }

  // ---- Connection attempts ----

  /** The one row that retries without looking at the attempts left. */
  ghost predicate Unguarded(v: Vpn, e: Event, i: Input) {
    && v.state == Connecting && e == AbandonEndpoint && !Holds(v, i, IsFatalError)
    && v.tries.retries == SeveralAttempts(0)
  }

  lemma SameTries(v: Vpn, a: Action, i: Input)
    requires a != Retry
    ensures Act(v, a, i).tries == v.tries
  {
    match a
    case RunPing =>
    case CompleteConnect =>
    case FailConnectWithNoAttempts =>
    case DoDisconnect =>
    case PrepareForRecovery =>
    case PrepareForRecoveryNc =>
    case FinalizeRecovery =>
    case _ =>
  }

  /** The row for no attempts left that comes before row `k`, which retries. */
  function LastAttemptRow(e: Event, k: nat): nat {
    if e == PingFail then 2 else if e == ClientDisconnected then 3 else if k == 4 then 1 else 13
  }

  /** Rows that retry come after a row for no attempts left, but for that one. */
  lemma RetryRows(e: Event, k: nat)
    requires k < |Rows(e)| && Rows(e)[k].before == Retry && e != AbandonEndpoint
    ensures LastAttemptRow(e, k) < k
    ensures var row := Rows(e)[LastAttemptRow(e, k)];
      row.src.Some? && row.src == Rows(e)[k].src && row.event == e && row.guard == NoConnectAttempts
  {
    match e
    case PingFail =>
    case ClientDisconnected =>
    case NetworkChange =>
    case _ =>
  }

  lemma AbandonRetries(k: nat)
    requires k < |Rows(AbandonEndpoint)| && Rows(AbandonEndpoint)[k].before == Retry
    ensures k == 1
  {
  }

  /** A retry row found by the search, with no attempts left. */
  lemma FoundRetry(v: Vpn, e: Event, i: Input, holds: Guard -> bool, k: nat)
    requires forall g :: holds(g) == Holds(v, i, g)
    requires v.tries.retries == SeveralAttempts(0)
    requires k < |Rows(e)| && Rows(e)[k].before == Retry && Fsm.Fits(Rows(e)[k], v.state, e, holds)
    requires forall j | 0 <= j < k :: !Fsm.Fits(Rows(e)[j], v.state, e, holds)
    ensures Unguarded(v, e, i)
  {
    if e == AbandonEndpoint {
      AbandonRetries(k);
      assert !Fsm.Fits(Rows(e)[0], v.state, e, holds);
    } else {
      RetryRows(e, k);
    }
  }

  /** With no attempts left, only that row still retries. */
  lemma RetryIsGuarded(v: Vpn, e: Event, i: Input)
    ensures var row := RowFor(v, e, i);
      row.Some? && row.value.before == Retry && v.tries.retries == SeveralAttempts(0) ==> Unguarded(v, e, i)
  {
    var holds := (g: Guard) => Holds(v, i, g);
    var row := Fsm.First(Rows(e), v.state, e, holds);
    if row.Some? && row.value.before == Retry && v.tries.retries == SeveralAttempts(0) {
      var k := Fsm.FirstAt(Rows(e), v.state, e, holds);
      FoundRetry(v, e, i, holds, k);
    }
  }

  ghost predicate Counted(v: Vpn) {
    v.tries.retries.SeveralAttempts? && v.running ==> v.tries.retried + v.tries.retries.left + 1 == v.tries.allowed
  }

  lemma TakeCounts(v: Vpn, row: Row, i: Input)
    ensures row.before != Retry ==> Take(v, row, i).tries == v.tries
    ensures row.before == Retry ==> Take(v, row, i).tries == RetryOnce(v.tries)
  {
    if row.before != Retry {
      SameTries(v, row.before, i);
    }
  }

  lemma UnguardedRetries(v: Vpn, e: Event, i: Input)
    requires Unguarded(v, e, i)
    ensures RowFor(v, e, i).Some? && RowFor(v, e, i).value.before == Retry
  {
    Fsm.FirstIs(Rows(e), v.state, e, (g: Guard) => Holds(v, i, g), 1);
  }

  lemma TransitionTries(v: Vpn, e: Event, i: Input)
    ensures var row := RowFor(v, e, i);
      Transition(v, e, i).tries == if row.Some? && row.value.before == Retry then RetryOnce(v.tries) else v.tries
  {
    var row := RowFor(v, e, i);
    if row.Some? {
      TakeCounts(v, row.value, i);
    }
  }

  /**
   * The number of attempts left wraps around exactly when an endpoint is abandoned, without a fatal
   * error, while the last allowed attempt is connecting.
   */
  lemma WrapsExactly(v: Vpn, e: Event, i: Input)
    requires v.tries.retries.SeveralAttempts?
    ensures var d := Transition(v, e, i).tries;
      && d.retries.SeveralAttempts? && d.allowed == v.tries.allowed
      && (d.retries.left > v.tries.retries.left <==> Unguarded(v, e, i))
      && (!Unguarded(v, e, i) ==> d.retried + d.retries.left == v.tries.retried + v.tries.retries.left)
  {
    TransitionTries(v, e, i);
    RetryIsGuarded(v, e, i);
    if Unguarded(v, e, i) {
      UnguardedRetries(v, e, i);
    }
  }

  // ---- Runs ----

  ghost predicate Possible(v: Vpn, steps: seq<Step>)
    decreases |steps|
  {
    steps == [] || (Enabled(v, steps[0]) && Possible(Next(v, steps[0]), steps[1..]))
  }

  function After(v: Vpn, steps: seq<Step>): Vpn
    decreases |steps|
  {
    if steps == [] then v else After(Next(v, steps[0]), steps[1..])
  }

  lemma {:induction false} InvAlways(v: Vpn, steps: seq<Step>)
    requires Inv(v) && Possible(v, steps)
    ensures Inv(After(v, steps))
    decreases |steps|
  {
    if steps != [] {
      NextKeeps(v, steps[0]);
      InvAlways(Next(v, steps[0]), steps[1..]);
    }
  }

  lemma InvInRuns(v: Vpn, steps: seq<Step>)
    requires Initial(v) && Possible(v, steps)
    ensures Inv(After(v, steps))
  {
    assert Inv(v);
    InvAlways(v, steps);
  }

  /** The request postponed as number `k` has met its fate as number `k`, or waits in its turn while the timer runs. */
  ghost predicate FateKnown(d: Vpn, k: nat)
    requires k < |d.everPostponed|
  {
    if k < |d.resolved| then d.resolved[k].request == d.everPostponed[k]
    else k - |d.resolved| < |d.postponed| && d.postponed[k - |d.resolved|] == d.everPostponed[k] && d.windowTimer
  }

  lemma FateOf(d: Vpn, k: nat)
    requires Accounted(d) && k < |d.everPostponed|
    ensures FateKnown(d, k)
  {
    assert |Requests(d.resolved)| == |d.resolved|;
  }

  /** In every run: each postponed request has met one fate, in order, or waits while the window timer runs. */
  lemma PostponedOnce(v: Vpn, steps: seq<Step>, k: nat)
    requires Initial(v) && Possible(v, steps) && k < |After(v, steps).everPostponed|
    ensures FateKnown(After(v, steps), k)
  {
    InvInRuns(v, steps);
    FateOf(After(v, steps), k);
  }

  lemma SameFates(v: Vpn, a: Action, i: Input)
    requires a != FinalizeRecovery
    ensures Act(v, a, i).resolved == v.resolved
  {
    match a
    case RunPing =>
    case CompleteConnect =>
    case FailConnectWithNoAttempts =>
    case DoDisconnect =>
    case PrepareForRecovery =>
    case PrepareForRecoveryNc =>
    case _ =>
  }

  lemma FinalizingRows(e: Event, k: nat)
    requires k < |Rows(e)|
    ensures Rows(e)[k].before == FinalizeRecovery <==> e == ClientReady && k == 1
  {
  }

  lemma FinalizesExactly(v: Vpn, e: Event, i: Input)
    ensures RowFor(v, e, i).Some? && RowFor(v, e, i).value.before == FinalizeRecovery
            <==> v.state == Recovering && e == ClientReady
  {
    var holds := (g: Guard) => Holds(v, i, g);
    if RowFor(v, e, i).Some? {
      var k := Fsm.FirstAt(Rows(e), v.state, e, holds);
      FinalizingRows(e, k);
    }
    if v.state == Recovering && e == ClientReady {
      Fsm.FirstIs(Rows(e), v.state, e, holds, 1);
    }
  }

  lemma TransitionFates(v: Vpn, e: Event, i: Input)
    ensures Transition(v, e, i).resolved ==
            if v.state == Recovering && e == ClientReady then v.resolved + Resolve(v.postponed, AsAsked) else v.resolved
  {
    FinalizesExactly(v, e, i);
    var row := RowFor(v, e, i);
    if row.Some? && row.value.before != FinalizeRecovery {
      SameFates(v, row.value.before, i);
    }
  }

  /** What decides the fate of the postponed requests: the session is back, the window is over, or the end. */
  function RulingBy(v: Vpn, step: Step): Option<Ruling> {
    match step
    case Fire(e, _) => if v.state == Recovering && e == ClientReady then Some(AsAsked) else None
    case WindowExpires => Some(WindowRuling(v))
    case Stop => Some(All(Dropped))
    case _ => None
  }

  /** Requests are completed, each with its own action, when recovery succeeds, and never otherwise decided early. */
  lemma FatesFit(v: Vpn, step: Step)
    ensures Next(v, step).resolved ==
            if RulingBy(v, step).Some? then v.resolved + Resolve(v.postponed, RulingBy(v, step).value) else v.resolved
  {
    match step
    case Connect(_, _, _, _, _, input) => ConnectFates(v, step);
    case Fire(event, input) => FireFates(v, event, input);
    case RecoveryTask(input) => TaskFates(v, input);
    case GiveUp(input) => TaskFates(v, input);
    case WindowExpires =>
    case Stop =>
  }

  lemma ConnectFates(v: Vpn, step: Step)
    requires step.Connect?
    ensures Next(v, step).resolved == v.resolved
  {
    TransitionFates(Configure(v, step), DoConnect, step.input);
  }

  lemma FireFates(v: Vpn, e: Event, i: Input)
    ensures Transition(Prepare(v, e), e, i).resolved ==
            if v.state == Recovering && e == ClientReady then v.resolved + Resolve(v.postponed, AsAsked) else v.resolved
  {
    TransitionFates(Prepare(v, e), e, i);
  }

  lemma TaskFates(v: Vpn, i: Input)
    ensures Next(v, RecoveryTask(i)).resolved == v.resolved && Next(v, GiveUp(i)).resolved == v.resolved
  {
    TransitionFates(v.(recovery := v.recovery.(task := false, attemptStart := i.now)), DoRecovery, i);
    TransitionFates(GivenUp(v), Shutdown, i);
  }

  /** In every run with the kill switch on, nothing is bypassed because the session is recovering. */
  lemma KillSwitchHolds(v: Vpn, steps: seq<Step>)
    requires Initial(v) && Possible(v, steps) && After(v, steps).killSwitch
    ensures After(v, steps).bypassed == [] && forall r | r in After(v, steps).resolved :: r.fate != Completed(ForceBypass)
  {
    InvInRuns(v, steps);
  }

  /**
   * In every run, recovery keeps to its limits: the attempts allowed, and for each a wait within the
   * interval it was scheduled under. Intervals start at the initial one and do not shrink until
   * recovery starts again.
   */
  lemma RecoveryIsBounded(v: Vpn, steps: seq<Step>, k: nat)
    requires Initial(v) && Possible(v, steps) && After(v, steps).running && k < |After(v, steps).waits|
    ensures var d := After(v, steps); var w := d.waits[k];
      && |d.waits| <= d.maxAttempts && w.time <= w.interval && (k == 0 ==> w.first)
      && (if w.first then w.interval == INITIAL_INTERVAL
          else w.interval == NextInterval(d.waits[k - 1].interval, d.rate) >= d.waits[k - 1].interval)
  {
    InvInRuns(v, steps);
    var d := After(v, steps);
    if !d.waits[k].first {
      IntervalGrows(d.waits[k - 1].interval, d.rate);
    }
  }

  // ---- Recovery does not stall ----

  /** A session that waits for its recovery has an attempt scheduled, or will give up. */
  ghost predicate Live(v: Vpn) {
    && (v.state == WaitingRecovery ==> v.recovery.task || v.giveUps > 0)
    && (!v.running ==> v.state == Disconnected)
  }

  /** Actions that leave a scheduled attempt alone. */
  predicate Undisturbing(a: Action) {
    a.DoNothing? || a.Listen? || a.Complete? || a.Reject? || a.Postpone? || a.BypassUntilConnected?
  }

  /** A row leads to waiting only by scheduling or giving up, and an event that may keep it waiting disturbs nothing. */
  lemma WaitingRows(e: Event, k: nat)
    requires k < |Rows(e)|
    ensures var row := Rows(e)[k];
      && (row.target == Some(WaitingRecovery) ==> row.before == PrepareForRecovery || row.before == PrepareForRecoveryNc)
      && (row.target.None? && (row.src.None? || row.src == Some(WaitingRecovery)) ==> Undisturbing(row.before))
  {
  }

  lemma TakeIsLive(v: Vpn, row: Row, i: Input)
    requires Live(v) && v.running && (row.src.None? || row.src == Some(v.state))
    requires row.target == Some(WaitingRecovery) ==> row.before == PrepareForRecovery || row.before == PrepareForRecoveryNc
    requires row.target.None? && (row.src.None? || row.src == Some(WaitingRecovery)) ==> Undisturbing(row.before)
    ensures Live(Take(v, row, i))
  {
    ActRuns(v, row.before, i);
    if row.target == Some(WaitingRecovery) {
      RecoveryWaits(v, row.before, i);
    } else if row.target.None? && v.state == WaitingRecovery {
      LeavesAlone(v, row.before, i);
    }
    LandIsLive(Act(v, row.before, i), row);
  }

  lemma LandIsLive(u: Vpn, row: Row)
    requires u.running
    requires row.target == Some(WaitingRecovery) || (row.target.None? && u.state == WaitingRecovery) ==>
               u.recovery.task || u.giveUps > 0
    ensures Live(Land(u, row))
  {
  }

  lemma RecoveryWaits(v: Vpn, a: Action, i: Input)
    requires a == PrepareForRecovery || a == PrepareForRecoveryNc
    ensures Act(v, a, i).recovery.task || Act(v, a, i).giveUps > 0
  {
  }

  lemma LeavesAlone(v: Vpn, a: Action, i: Input)
    requires Undisturbing(a)
    ensures Act(v, a, i).recovery == v.recovery && Act(v, a, i).giveUps == v.giveUps
  {
    match a
    case Postpone =>
    case BypassUntilConnected =>
    case _ =>
  }

  lemma ActRuns(v: Vpn, a: Action, i: Input)
    ensures Act(v, a, i).running == v.running && Act(v, a, i).state == v.state
  {
    match a
    case RunPing =>
    case CompleteConnect =>
    case FailConnectWithNoAttempts =>
    case DoDisconnect =>
    case PrepareForRecovery =>
    case PrepareForRecoveryNc =>
    case FinalizeRecovery =>
    case _ =>
  }

  lemma TransitionIsLive(v: Vpn, e: Event, i: Input)
    requires Live(v) && v.running
    ensures Live(Transition(v, e, i))
  {
    var row := RowFor(v, e, i);
    if row.Some? {
      var k := Fsm.FirstAt(Rows(e), v.state, e, (g: Guard) => Holds(v, i, g));
      WaitingRows(e, k);
      TakeIsLive(v, row.value, i);
    }
  }

  /** The recovery task takes a waiting session out of waiting. */
  lemma TaskLeaves(v: Vpn, i: Input)
    ensures v.state == WaitingRecovery ==> Transition(v, DoRecovery, i).state == Recovering
    ensures v.state != WaitingRecovery ==> Transition(v, DoRecovery, i) == v
  {
    var holds := (g: Guard) => Holds(v, i, g);
    if v.state == WaitingRecovery {
      Fsm.FirstIs(Rows(DoRecovery), v.state, DoRecovery, holds, if Holds(v, i, NeedToPing) then 0 else 1);
    } else {
      Fsm.FirstIsNone(Rows(DoRecovery), v.state, DoRecovery, holds);
    }
  }

  lemma ShutdownLeaves(v: Vpn, i: Input)
    ensures Transition(v, Shutdown, i).state == Disconnected
  {
    Fsm.FirstIs(Rows(Shutdown), v.state, Shutdown, (g: Guard) => Holds(v, i, g), if v.state == Disconnected then 0 else 1);
  }

  lemma NextIsLive(v: Vpn, step: Step)
    requires Live(v) && Enabled(v, step)
    ensures Live(Next(v, step))
  {
    match step
    case Connect(_, _, _, _, _, input) => TransitionIsLive(Configure(v, step), DoConnect, input);
    case Fire(e, input) => TransitionIsLive(Prepare(v, e), e, input);
    case RecoveryTask(input) =>
      TransitionRuns(v.(recovery := v.recovery.(task := false, attemptStart := input.now)), DoRecovery, input);
      TaskLeaves(v.(recovery := v.recovery.(task := false, attemptStart := input.now)), input);
    case GiveUp(input) =>
      ShutdownLeaves(GivenUp(v), input);
    case WindowExpires =>
    case Stop =>
  }

  lemma TransitionRuns(v: Vpn, e: Event, i: Input)
    ensures Transition(v, e, i).running == v.running
  {
    var row := RowFor(v, e, i);
    if row.Some? {
      ActRuns(v, row.value.before, i);
    }
  }

  /** In every run, a session waits for its recovery only while an attempt is scheduled or the recovery is being given up. */
  lemma {:induction false} NeverStalls(v: Vpn, steps: seq<Step>)
    requires Live(v) && Possible(v, steps)
    ensures Live(After(v, steps))
    decreases |steps|
  {
    if steps != [] {
      NextIsLive(v, steps[0]);
      NeverStalls(Next(v, steps[0]), steps[1..]);
    }
  }

  /** How to get there: the only attempt allowed is under way when its endpoint is abandoned. */
  lemma WrapIsReachable(v: Vpn, connect: Step, abandon: Input)
    requires Initial(v) && connect.Connect? && connect.several && connect.attempts == 1 && !IsFatal(abandon.error)
    ensures var steps := [connect, Fire(AbandonEndpoint, abandon)];
      Possible(v, steps) && After(v, steps).tries.retries == SeveralAttempts(MAX_SIZE)
  {
    var u := Next(v, connect);
    Connects(Configure(v, connect), connect.input);
    UnguardedRetries(u, AbandonEndpoint, abandon);
    TransitionTries(u, AbandonEndpoint, abandon);
    RunOfTwo(v, connect, Fire(AbandonEndpoint, abandon));
  }

  lemma Connects(v: Vpn, i: Input)
    requires v.state == Disconnected
    ensures var u := Transition(v, DoConnect, i);
      u.state == Connecting && u.running == v.running && u.pendingError == NoError && u.tries == v.tries
  {
    Fsm.FirstIs(Rows(DoConnect), v.state, DoConnect, (g: Guard) => Holds(v, i, g), 0);
  }

  lemma RunOfTwo(v: Vpn, a: Step, b: Step)
    ensures After(v, [a, b]) == Next(Next(v, a), b)
    ensures Possible(v, [a, b]) <==> Enabled(v, a) && Enabled(Next(v, a), b)
  {
    assert [a, b][1..] == [b] && [b][1..] == [];
    assert After(Next(v, a), [b]) == After(Next(Next(v, a), b), []);
    assert Possible(Next(v, a), [b]) <==> Enabled(Next(v, a), b) && Possible(Next(Next(v, a), b), []);
  }

  /** A run in which no endpoint is abandoned during the last attempt. */
  ghost predicate Orderly(v: Vpn, steps: seq<Step>)
    decreases |steps|
  {
    steps == [] ||
    (&& (steps[0].Fire? ==> !Unguarded(v, steps[0].event, steps[0].input))
     && Orderly(Next(v, steps[0]), steps[1..]))
  }

  lemma TransitionCounts(v: Vpn, e: Event, i: Input)
    requires !Unguarded(v, e, i)
    ensures var d := Transition(v, e, i);
      && d.tries.allowed == v.tries.allowed
      && (d.tries.retries.SeveralAttempts? <==> v.tries.retries.SeveralAttempts?)
      && (v.tries.retries.SeveralAttempts? ==>
            d.tries.retried + d.tries.retries.left == v.tries.retried + v.tries.retries.left)
  {
    TransitionTries(v, e, i);
    if v.tries.retries.SeveralAttempts? {
      WrapsExactly(v, e, i);
    }
  }

  lemma ConnectCounts(v: Vpn, step: Step)
    requires step.Connect?
    ensures Counted(Next(v, step))
  {
    TransitionCounts(Configure(v, step), DoConnect, step.input);
  }

  lemma FireCounts(v: Vpn, e: Event, i: Input)
    requires Counted(v) && v.running && !Unguarded(v, e, i)
    ensures Counted(Transition(Prepare(v, e), e, i))
  {
    TransitionCounts(Prepare(v, e), e, i);
  }

  lemma TaskCounts(v: Vpn, i: Input)
    requires Counted(v) && v.running
    ensures Counted(Next(v, RecoveryTask(i)))
  {
    TransitionCounts(v.(recovery := v.recovery.(task := false, attemptStart := i.now)), DoRecovery, i);
  }

  lemma GiveUpCounts(v: Vpn, i: Input)
    requires Counted(v) && v.running
    ensures Counted(Next(v, GiveUp(i)))
  {
    TransitionCounts(GivenUp(v), Shutdown, i);
  }

  lemma NextCounts(v: Vpn, step: Step)
    requires Counted(v) && Enabled(v, step) && (step.Fire? ==> !Unguarded(v, step.event, step.input))
    ensures Counted(Next(v, step))
  {
    match step
    case Connect(_, _, _, _, _, _) => ConnectCounts(v, step);
    case Fire(event, input) => FireCounts(v, event, input);
    case RecoveryTask(input) => TaskCounts(v, input);
    case GiveUp(input) => GiveUpCounts(v, input);
    case WindowExpires =>
    case Stop =>
  }

  /** In every orderly run with several attempts, retries and attempts left add up, so retries are bounded. */
  lemma {:induction false} AttemptsAreBounded(v: Vpn, steps: seq<Step>)
    requires Inv(v) && Counted(v) && Possible(v, steps) && Orderly(v, steps)
    ensures var d := After(v, steps);
      d.running && d.tries.retries.SeveralAttempts? ==>
        d.tries.retried + d.tries.retries.left + 1 == d.tries.allowed && d.tries.retried < d.tries.allowed
    decreases |steps|
  {
    if steps != [] {
      NextKeeps(v, steps[0]);
      NextCounts(v, steps[0]);
      AttemptsAreBounded(Next(v, steps[0]), steps[1..]);
    }
  }

  // ---- The object ----

  /** The arithmetic of `initiate_recovery`, step by step. */
  method Reschedule(r: Recovery, now: nat, rate: real, period: nat) returns (d: Recovery)
    ensures d == Rescheduled(r, now, rate, period)
  {
    d := r;
    var elapsed := 0;
    if d.start.Some? {
      elapsed := Max(now - d.attemptStart, 0);
    } else {
      d := d.(start := Some(now));
    }
    var timeToNext := 0;
    if d.interval >= elapsed {
      timeToNext := d.interval - elapsed;
    }
    d := d.(attempts := d.attempts + 1, task := true, interval := NextInterval(d.interval, rate));
    if now + timeToNext - d.start.value >= period {
      d := d.(start := None, attemptStart := 0, interval := INITIAL_INTERVAL);
    }
    d := d.(toNext := timeToNext);
  }

  lemma ResolveSnoc(requests: seq<Request>, i: nat, ruling: Ruling)
    requires i < |requests|
    ensures Resolve(requests[..i + 1], ruling) == Resolve(requests[..i], ruling) + [Ruled(requests[i], ruling)]
    ensures Ids(requests[..i + 1]) == Ids(requests[..i]) + [requests[i].id]
  {
  }

  class Session {
    const killSwitch: bool
    var state: State
    var recursive: bool
    var running: bool
    var maxAttempts: nat
    var rate: real
    var period: nat
    var pendingError: Code
    var connectedOnce: bool
    var networkChanged: bool
    var hasEndpoint: bool
    var recovery: Recovery
    var windowTimer: bool
    var postponed: seq<Request>
    var bypassed: seq<nat>
    var tries: Tries
    ghost var everPostponed: seq<Request>
    ghost var resolved: seq<Resolved>
    ghost var waits: seq<Wait>
    var giveUps: nat

    ghost function View(): Vpn
      reads this
    {
      Vpn(state, running, killSwitch, maxAttempts, rate, period, pendingError, connectedOnce, networkChanged, hasEndpoint,
          recovery, windowTimer, postponed, bypassed, everPostponed, resolved, waits, giveUps, tries)
    }

    constructor (killSwitch: bool)
      ensures Initial(View()) && !recursive
    {
      this.killSwitch := killSwitch;
      state, recursive, running, maxAttempts, rate, period := Disconnected, false, false, 0, 1.0, 0;
      pendingError, connectedOnce, networkChanged, hasEndpoint := NoError, false, false, false;
      recovery, windowTimer, postponed, bypassed := NewRecovery(), false, [], [];
      tries, everPostponed, resolved, waits, giveUps := Tries(FallIntoRecovery, 0, 0), [], [], [], 0;
    }

    method ResetRecoveryInfo()
      modifies this`recovery, this`waits
      ensures View() == ResetRecovery(old(View()))
    {
      recovery, waits := NewRecovery(), [];
    }

    /** `initiate_recovery`. */
    method Initiate(now: nat)
      modifies this`recovery, this`windowTimer, this`waits, this`giveUps
      ensures View() == InitiateRecovery(old(View()), now)
    {
      if recovery.attempts >= maxAttempts {
        giveUps := giveUps + 1;
        return;
      }
      if recovery.start.None? {
        windowTimer := true;
      }
      waits := waits + [Wait(TimeToNext(recovery, now), recovery.interval, recovery.start.None?)];
      recovery := Reschedule(recovery, now, rate, period);
    }

    /** `complete_postponed_requests`. */
    method CompletePostponedRequests()
      modifies this`postponed, this`resolved
      ensures View() == ResolveAll(old(View()), AsAsked)
    {
      var i := 0;
      while i < |postponed|
        modifies this`resolved
        invariant i <= |postponed| && resolved == old(resolved) + Resolve(postponed[..i], AsAsked)
      {
        ResolveSnoc(postponed, i, AsAsked);
        resolved := resolved + [Resolved(postponed[i], Completed(postponed[i].action))];
        i := i + 1;
      }
      assert postponed[..i] == postponed;
      postponed := [];
    }

    /** `postponement_window_timer_cb`. */
    method OnWindowExpires()
      modifies this`windowTimer, this`postponed, this`bypassed, this`resolved
      ensures View() == Next(old(View()), WindowExpires)
    {
      windowTimer := false;
      ForcePostponedRequests(if killSwitch then Rejected else Completed(ForceBypass));
    }

    method ForcePostponedRequests(fate: Fate)
      modifies this`postponed, this`bypassed, this`resolved
      ensures postponed == [] && resolved == old(resolved) + Resolve(old(postponed), All(fate))
      ensures bypassed == old(bypassed) + (if killSwitch then [] else Ids(old(postponed)))
    {
      var i := 0;
      while i < |postponed|
        modifies this`bypassed, this`resolved
        invariant i <= |postponed| && resolved == old(resolved) + Resolve(postponed[..i], All(fate))
        invariant bypassed == old(bypassed) + (if killSwitch then [] else Ids(postponed[..i]))
      {
        ResolveSnoc(postponed, i, All(fate));
        resolved := resolved + [Resolved(postponed[i], fate)];
        if !killSwitch {
          bypassed := bypassed + [postponed[i].id];
        }
        i := i + 1;
      }
      assert postponed[..i] == postponed;
      postponed := [];
    }

    /** `finalize_recovery`. */
    method FinalizeRecoveryAction()
      modifies this`recovery, this`waits, this`windowTimer, this`postponed, this`resolved, this`bypassed
      ensures View() == ResolveAll(ResetRecovery(old(View())), AsAsked).(windowTimer := false, bypassed := [])
    {
      ResetRecoveryInfo();
      windowTimer := false;
      CompletePostponedRequests();
      bypassed := [];
    }

    /** `complete_connect`. */
    method CompleteConnectAction(error: Code)
      modifies this`pendingError, this`recovery, this`waits
      ensures View() == FinishConnect(old(View()), error)
    {
      SettleError(error);
      ResetRecoveryInfo();
    }

    method SettleError(error: Code)
      modifies this`pendingError
      ensures pendingError == FinalError(old(pendingError), error, tries.retries == SeveralAttempts(0))
    {
      if pendingError == NoError && error != NoError {
        pendingError := error;
      }
      if pendingError != NoError && !(IsFatal(error) || IsFatal(pendingError)) && tries.retries == SeveralAttempts(0) {
        pendingError := InitialConnectFailed;
      }
    }

    method Perform(a: Action, i: Input)
      modifies this
      ensures View() == Act(old(View()), a, i) && recursive == old(recursive)
    {
      match a
      case CompleteConnect => CompleteConnectAction(i.error);
      case FailConnectWithNoAttempts => CompleteConnectAction(InitialConnectFailed);
      case DoDisconnect => ResetRecoveryInfo();
      case PrepareForRecovery => PrepareForRecoveryAction(i.error, i.now);
      case PrepareForRecoveryNc => Initiate(i.now);
      case FinalizeRecovery => FinalizeRecoveryAction();
      case ConnectClient => SetError(i.connectError);
      case ReconnectClient => SetError(i.connectError);
      case OnWrongConnectState => SetError(InvalidState);
      case Postpone => PostponeRequest(i.request);
      case BypassUntilConnected => BypassRequest(i.request.id);
      case RunPing => RunPingAction(i.now);
      case Retry => RetryAction();
      case _ =>
    }

    /** `prepare_for_recovery`. */
    method PrepareForRecoveryAction(error: Code, now: nat)
      modifies this`recovery, this`windowTimer, this`waits, this`giveUps, this`pendingError
      ensures View() == WithError(InitiateRecovery(old(View()), now), error)
    {
      Initiate(now);
      if pendingError == NoError && error != NoError {
        pendingError := error;
      }
    }

    /** `run_ping`. */
    method RunPingAction(now: nat)
      modifies this`pendingError, this`hasEndpoint, this`recovery
      ensures View() == Ping(old(View()), now)
    {
      pendingError, hasEndpoint := NoError, false;
      if recovery.task {
        recovery := recovery.(task := false, attemptStart := now);
      }
    }

    /** `retry_connect`. */
    method RetryAction()
      modifies this`tries
      ensures View() == old(View()).(tries := RetryOnce(old(tries)))
    {
      if tries.retries.SeveralAttempts? {
        tries := tries.(retries := SeveralAttempts(Decrement(tries.retries.left)), retried := tries.retried + 1);
      }
    }

    method SetError(code: Code)
      modifies this`pendingError
      ensures View() == old(View()).(pendingError := code)
    {
      pendingError := code;
    }

    /** `postpone_request`. */
    method PostponeRequest(request: Request)
      modifies this`postponed, this`everPostponed
      ensures View() == old(View()).(postponed := old(postponed) + [request], everPostponed := old(everPostponed) + [request])
    {
      postponed, everPostponed := postponed + [request], everPostponed + [request];
    }

    /** `bypass_until_connected`. */
    method BypassRequest(id: nat)
      modifies this`bypassed
      ensures View() == old(View()).(bypassed := old(bypassed) + [id])
    {
      bypassed := bypassed + [id];
    }

    /** `raise_state`. */
    method RaiseStateEvent()
      modifies this`pendingError, this`connectedOnce, this`networkChanged
      ensures View() == Raise(old(View()))
    {
      if state != Connected {
        pendingError := NoError;
      }
      connectedOnce := connectedOnce || state == Connected;
      networkChanged := networkChanged && state != Disconnected && state != Connecting && state != Recovering;
    }

    method TakeRow(row: Row, i: Input)
      modifies this
      ensures View() == Take(old(View()), row, i) && !recursive
    {
      Perform(row.before, i);
      if row.target.Some? {
        state := row.target.value;
      }
      recursive := false;
      if row.after == RaiseState {
        RaiseStateEvent();
      }
    }

    method SelectRow(e: Event, i: Input) returns (row: Option<Row>)
      ensures row == RowFor(View(), e, i)
    {
      var snapshot := Vpn(state, running, killSwitch, maxAttempts, rate, period, pendingError, connectedOnce, networkChanged,
                          hasEndpoint, recovery, windowTimer, postponed, bypassed, [], [], [], 0, tries);
      SameGuards(View(), snapshot, i, Rows(e), e);
      row := Fsm.Select(Rows(e), state, e, (g: Guard) => Holds(snapshot, i, g));
    }

    /** `perform_transition`: an event raised from inside an action is refused. */
    method PerformTransition(e: Event, i: Input)
      modifies this
      ensures old(recursive) ==> View() == old(View()) && recursive
      ensures !old(recursive) ==> View() == Transition(old(View()), e, i) && !recursive
    {
      if recursive {
        return;
      }
      recursive := true;
      var row := SelectRow(e, i);
      if row.Some? {
        TakeRow(row.value, i);
      }
      recursive := false;
    }
  }

  lemma {:induction false} SameGuards(v: Vpn, u: Vpn, i: Input, rows: seq<Row>, e: Event)
    requires u == v.(everPostponed := u.everPostponed, resolved := u.resolved, waits := u.waits, giveUps := u.giveUps)
    ensures Fsm.First(rows, v.state, e, (g: Guard) => Holds(v, i, g)) == Fsm.First(rows, u.state, e, (g: Guard) => Holds(u, i, g))
    decreases |rows|
  {
    if rows != [] {
      SameGuards(v, u, i, rows[1..], e);
    }
  }
}
