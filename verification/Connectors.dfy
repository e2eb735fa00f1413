/**
 * Connecting to an endpoint: a connector that opens a session on one upstream, and one that runs a
 * main and a fallback connector against each other. Results arrive through event loop tasks;
 * replacing or destroying a handle cancels what it stands for. A connector is connected once.
 */
module Connectors {
  import opened Prelude
  import Fsm

  // ---- One upstream ----

  datatype State = Disconnected | Connecting | Disconnecting

  datatype Event = RunConnect | Disconnect | DeferredDisconnect | SessionOpened | SessionClosed | SessionError

  datatype Action = DoNothing | DoConnect | DoDisconnect | SubmitDisconnect

  datatype Aftermath = Nothing | RaiseConnected | RaiseDisconnected

  // What a connector reports.
  datatype Outcome = Opened | Failed

  type Row = Fsm.Entry<State, Event, bool, Action, Aftermath>

  const TABLE: seq<Row> := [
    Fsm.Entry(Some(Disconnected), RunConnect, true, DoConnect, Some(Connecting), Nothing),
    Fsm.Entry(Some(Disconnected), SessionClosed, true, DoNothing, None, Nothing),
    Fsm.Entry(Some(Disconnected), Disconnect, true, DoNothing, None, Nothing),
    Fsm.Entry(Some(Connecting), SessionOpened, true, DoNothing, Some(Disconnected), RaiseConnected),
    Fsm.Entry(Some(Connecting), SessionClosed, true, DoNothing, Some(Disconnected), RaiseDisconnected),
    Fsm.Entry(Some(Connecting), SessionError, true, SubmitDisconnect, Some(Disconnecting), Nothing),
    Fsm.Entry(Some(Disconnecting), SessionClosed, true, DoNothing, Some(Disconnected), RaiseDisconnected),
    Fsm.Entry(Some(Disconnecting), DeferredDisconnect, true, DoDisconnect, Some(Disconnected), RaiseDisconnected),
    Fsm.Entry(None, Disconnect, true, DoDisconnect, Some(Disconnected), Nothing)]

  function RowFor(s: State, e: Event): Option<Row> {
    Fsm.First(TABLE, s, e, (g: bool) => g)
  }

  // Where the row for an event is.
  function RowIndex(s: State, e: Event): Option<nat> {
    match (s, e)
    case (Disconnected, RunConnect) => Some(0)
    case (Disconnected, SessionClosed) => Some(1)
    case (Disconnected, Disconnect) => Some(2)
    case (Connecting, SessionOpened) => Some(3)
    case (Connecting, SessionClosed) => Some(4)
    case (Connecting, SessionError) => Some(5)
    case (Disconnecting, SessionClosed) => Some(6)
    case (Disconnecting, DeferredDisconnect) => Some(7)
    case (_, Disconnect) => Some(8)
    case _ => None
  }

  /** Which events a row is for, row by row. */
  lemma RowFits(s: State, e: Event, j: nat)
    requires j < |TABLE|
    ensures Fsm.Fits(TABLE[j], s, e, (g: bool) => g) <==>
            RowIndex(s, e) == Some(j) || (j == 8 && s == Disconnected && e == Disconnect)
  {
  }

  lemma RowIs(s: State, e: Event)
    ensures RowFor(s, e) == if RowIndex(s, e).Some? then Some(TABLE[RowIndex(s, e).value]) else None
  {
    forall j: nat | j < |TABLE|
      ensures Fsm.Fits(TABLE[j], s, e, (g: bool) => g) <==>
              RowIndex(s, e) == Some(j) || (j == 8 && s == Disconnected && e == Disconnect)
    {
      RowFits(s, e, j);
    }
    if RowIndex(s, e).Some? {
      Fsm.FirstIs(TABLE, s, e, (g: bool) => g, RowIndex(s, e).value);
    } else {
      Fsm.FirstIsNone(TABLE, s, e, (g: bool) => g);
    }
  }

  /** Where an event leads, and what is reported on the way. */
  function StateAfter(s: State, e: Event): State {
    var row := RowFor(s, e);
    if row.Some? && row.value.target.Some? then row.value.target.value else s
  }

  function ReportOf(s: State, e: Event): Option<Outcome> {
    var row := RowFor(s, e);
    if row.None? then None
    else match row.value.after
      case Nothing => None
      case RaiseConnected => Some(Opened)
      case RaiseDisconnected => Some(Failed)
  }

  /**
   * A connector reports once per connect: only while connecting or disconnecting, and then it is
   * done; a session that opens is reported as such, and only while connecting.
   */
  lemma ReportsOnce(s: State, e: Event)
    ensures ReportOf(s, e).Some? ==> s != Disconnected && StateAfter(s, e) == Disconnected
    ensures s != Disconnected && StateAfter(s, e) == Disconnected && e != Disconnect ==> ReportOf(s, e).Some?
    ensures ReportOf(s, e) == Some(Opened) <==> s == Connecting && e == SessionOpened
    ensures StateAfter(s, e) == Connecting && s != Connecting ==> e == RunConnect
  {
    RowIs(s, e);
  }

  /** The same in closed form. */
  function Lands(s: State, e: Event): State {
    match (s, e)
    case (_, Disconnect) => Disconnected
    case (Disconnected, RunConnect) => Connecting
    case (Connecting, SessionError) => Disconnecting
    case (Connecting, SessionOpened) => Disconnected
    case (Connecting, SessionClosed) => Disconnected
    case (Disconnecting, SessionClosed) => Disconnected
    case (Disconnecting, DeferredDisconnect) => Disconnected
    case _ => s
  }

  function Tells(s: State, e: Event): Option<Outcome> {
    match (s, e)
    case (Connecting, SessionOpened) => Some(Opened)
    case (Connecting, SessionClosed) => Some(Failed)
    case (Disconnecting, SessionClosed) => Some(Failed)
    case (Disconnecting, DeferredDisconnect) => Some(Failed)
    case _ => None
  }

  lemma AsTheTable(s: State, e: Event)
    ensures Lands(s, e) == StateAfter(s, e) && Tells(s, e) == ReportOf(s, e)
  {
    RowIs(s, e);
  }

  class SingleConnector {
    var state: State
    var pendingError: bool
    var deferredTask: bool

    ghost predicate Valid()
      reads this
    {
      state == Disconnecting ==> deferredTask
    }

    constructor ()
      ensures Valid() && state == Disconnected && !pendingError
    {
      state, pendingError, deferredTask := Disconnected, false, false;
    }

    /** One transition; `fails` is the error of opening a session or the one that came with the event. */
    method Fire(e: Event, fails: bool) returns (raised: Option<Outcome>)
      modifies this
      ensures var row := RowFor(old(state), e);
        && (row.None? ==> state == old(state) && raised == None && pendingError == old(pendingError)
                          && deferredTask == old(deferredTask))
        && (row.Some? ==>
              && state == (if row.value.target.Some? then row.value.target.value else old(state))
              && raised == (match row.value.after
                            case Nothing => None
                            case RaiseConnected => Some(Opened)
                            case RaiseDisconnected => Some(Failed))
              && pendingError == (row.value.after != RaiseDisconnected
                                  && (old(pendingError) || (fails && row.value.before != DoNothing)))
              && deferredTask == (match row.value.before
                                  case SubmitDisconnect => true
                                  case DoDisconnect => false
                                  case _ => old(deferredTask)))
    {
      var row := Fsm.Select(TABLE, state, e, (g: bool) => g);
      raised := None;
      if row.Some? {
        match row.value.before {
          case DoNothing =>
          case DoConnect => pendingError := pendingError || fails;
          case DoDisconnect => pendingError, deferredTask := pendingError || fails, false;
          case SubmitDisconnect => pendingError, deferredTask := pendingError || fails, true;
        }
        if row.value.target.Some? {
          state := row.value.target.value;
        }
        match row.value.after {
          case Nothing =>
          case RaiseConnected => raised := Some(Opened);
          case RaiseDisconnected =>
            pendingError := false;
            raised := Some(Failed);
        }
      }
    }

    /** `connect`; false if the upstream could not be started, or an error is left over from an earlier use. */
    method Connect(initOk: bool, openOk: bool) returns (ok: bool)
      requires Valid()
      modifies this
      ensures Valid() && ok == (old(state) == Disconnected && initOk && openOk && !old(pendingError))
      ensures state == if ok then Connecting else old(state)
    {
      if state != Disconnected || !initOk {
        return false;
      }
      RowIs(state, RunConnect);
      var _ := Fire(RunConnect, !openOk);
      if pendingError {
        pendingError := false;
        Stop();
        return false;
      }
      return true;
    }

    /** `disconnect`: nothing is reported. */
    method Stop()
      modifies this
      ensures Valid() && state == Disconnected && pendingError == old(pendingError)
    {
      RowIs(state, Disconnect);
      var _ := Fire(Disconnect, false);
    }

    /** An event of the upstream, or the deferred task. */
    method OnEvent(e: Event, fails: bool) returns (raised: Option<Outcome>)
      requires Valid() && e != RunConnect && e != Disconnect && (e == DeferredDisconnect ==> deferredTask)
      modifies this
      ensures Valid() && state == Lands(old(state), e) && raised == Tells(old(state), e)
      ensures raised.Some? <==> old(state) != Disconnected && state == Disconnected
      ensures old(state) == Disconnected ==> state == Disconnected
    {
      RowIs(state, e);
      AsTheTable(state, e);
      if e == DeferredDisconnect {
        deferredTask := false;
      }
      raised := Fire(e, fails);
    }
  }

  // ---- Two upstreams ----

  /** The time left for the fallback: what the main connector did not use, but a tenth at least. */
  function FallbackTimeout(timeout: nat, elapsed: nat): (t: nat)
    ensures timeout / 10 <= t <= timeout
  {
    Max(timeout - elapsed, timeout / 10)
  }

  class FallbackableConnector {
    const main: SingleConnector
    const fallback: SingleConnector
    const connectTimeout: Option<nat>
    var mainPresent: bool                  // the connector has not been destroyed
    var mainHasResult: bool
    var mainResultTask: Option<Outcome>
    var fallbackPresent: bool
    var fallbackTried: bool
    var fallbackHasResult: bool
    var delayTask: bool
    var fallbackResultTask: Option<Outcome>
    var raised: seq<Outcome>
    var starts: nat                        // how often the fallback was started
    ghost var stopped: bool                // disconnected
    var failures: nat                      // failed connectors

    /** The parts of a connector agree. */
    ghost predicate Shape()
      reads this, main, fallback
    {
      && main != fallback && main.Valid() && fallback.Valid()
      && (mainResultTask.Some? ==> mainPresent && main.state == Disconnected)
      && (fallbackResultTask.Some? ==> fallbackPresent && fallbackTried && fallback.state == Disconnected)
      && (mainPresent ==> !mainHasResult) && (fallbackPresent ==> !fallbackHasResult)
      && (!fallbackTried ==> !fallbackHasResult && (fallbackPresent ==> fallback.state == Disconnected))
      && starts <= 1 && (raised == [] ==> starts == if fallbackTried then 1 else 0)
    }

    /** The main connector is under way, or has its result. */
    ghost predicate MainUnderWay()
      reads this, main
    {
      if mainPresent then main.state != Disconnected || mainResultTask.Some? else mainHasResult
    }

    ghost predicate FallbackUnderWay()
      reads this, fallback
    {
      !delayTask && if fallbackPresent then fallback.state != Disconnected || fallbackResultTask.Some? else fallbackHasResult
    }

    ghost predicate Counted()
      reads this
    {
      failures == (if mainHasResult then 1 else 0) + (if fallbackHasResult then 1 else 0) && failures <= 1
    }

    /** Connected and not done: each connector is under way, has failed, or (the fallback) waits for its turn. */
    ghost predicate Working()
      reads this, main, fallback
    {
      && raised == [] && !stopped && Counted() && MainUnderWay()
      && (if fallbackTried then FallbackUnderWay() else fallbackPresent && delayTask)
    }

    /** Done: nothing is left that could raise. */
    ghost predicate Finished()
      reads this
    {
      && |raised| == 1 && !mainPresent && !fallbackPresent && mainResultTask.None? && fallbackResultTask.None? && !delayTask
      && (raised[0] == Failed <==> failures == 2) && !stopped
    }

    ghost predicate Stopped()
      reads this, main, fallback
    {
      && stopped && raised == [] && failures <= 1 && !delayTask && mainResultTask.None? && fallbackResultTask.None?
      && (mainPresent ==> main.state == Disconnected) && (fallbackPresent ==> fallback.state == Disconnected)
    }

    ghost predicate Valid()
      reads this, main, fallback
    {
      Shape() && (Working() || Finished() || Stopped())
    }

    /** A new connector, with `connect` called on it. */
    constructor (connectTimeout: Option<nat>, initOk: bool, openOk: bool)
      ensures Valid() && Working() && fresh(main) && fresh(fallback) && this.connectTimeout == connectTimeout
      ensures !fallbackTried && !fallback.pendingError
      ensures if initOk && openOk then mainPresent && main.state == Connecting else failures == 1
    {
      this.connectTimeout := connectTimeout;
      main := new SingleConnector();
      fallback := new SingleConnector();
      mainPresent, mainHasResult, mainResultTask := true, false, None;
      fallbackPresent, fallbackTried, fallbackHasResult, delayTask, fallbackResultTask := true, false, false, false, None;
      raised, starts, stopped, failures := [], 0, false, 0;
      new;
      var ok := main.Connect(initOk, openOk);
      if ok {
        delayTask := true;
      } else {
        HandleConnectResult(true, Failed);
      }
    }

    /** `handle_connect_result`: the first success is raised, or the second failure. */
    method HandleConnectResult(fromMain: bool, result: Outcome)
      requires Shape() && raised == [] && !stopped && Counted()
      requires fromMain ==> mainPresent && main.state == Disconnected
                            && (if fallbackTried then FallbackUnderWay() else fallbackPresent)
      requires !fromMain ==> fallbackPresent && fallbackTried && fallback.state == Disconnected && MainUnderWay() && !delayTask
      modifies this, main, fallback
      ensures Valid() && !stopped && starts == old(starts)
      ensures raised == if result == Opened then [Opened] else if old(failures) == 1 then [Failed] else []
      ensures failures == old(failures) + (if result == Failed then 1 else 0)
      ensures raised == [] ==> fallbackTried == old(fallbackTried) && fallback.pendingError == old(fallback.pendingError)
    {
      var needRaise := false;
      if result == Opened {
        DisconnectOther(fromMain);
        needRaise := true;
      } else {
        failures := failures + 1;
      }
      if fromMain {
        mainPresent, mainHasResult, mainResultTask := false, true, None;
      } else {
        fallbackPresent, fallbackHasResult, fallbackResultTask := false, true, None;
      }
      if mainHasResult && fallbackHasResult {
        needRaise := true;
      }
      if needRaise {
        RaiseResult(result);
      } else if !fallbackTried {
        delayTask := true;
      }
    }

    method DisconnectOther(fromMain: bool)
      requires main != fallback && main.Valid() && fallback.Valid()
      modifies main, fallback
      ensures main.Valid() && fallback.Valid()
      ensures main.state == if !fromMain && mainPresent then Disconnected else old(main.state)
      ensures fallback.state == if fromMain && fallbackPresent then Disconnected else old(fallback.state)
    {
      if fromMain {
        if fallbackPresent {
          fallback.Stop();
        }
      } else if mainPresent {
        main.Stop();
      }
    }

    /** The result goes to the user and both connectors are destroyed with their tasks. */
    method RaiseResult(result: Outcome)
      requires main != fallback && main.Valid() && fallback.Valid() && raised == [] && starts <= 1 && !stopped
      requires result == Failed <==> failures == 2
      modifies this
      ensures raised == [result] && Shape() && Finished() && starts == old(starts) && failures == old(failures)
    {
      raised := raised + [result];
      mainPresent, mainHasResult, mainResultTask := false, false, None;
      fallbackPresent, fallbackTried, fallbackHasResult := false, false, false;
      delayTask, fallbackResultTask := false, None;
    }

    /** A result of one of the connectors is handled from the event loop. */
    method OnUpstreamEvent(ofMain: bool, e: Event, fails: bool)
      requires Valid() && e != RunConnect && e != Disconnect
      requires if ofMain then mainPresent && (e == DeferredDisconnect ==> main.deferredTask)
               else fallbackPresent && (e == DeferredDisconnect ==> fallback.deferredTask)
      modifies this`mainResultTask, this`fallbackResultTask, main, fallback
      ensures Valid()
    {
      if ofMain {
        OnMainEvent(e, fails);
      } else {
        OnFallbackEvent(e, fails);
      }
    }

    method OnMainEvent(e: Event, fails: bool)
      requires Valid() && e != RunConnect && e != Disconnect && mainPresent && (e == DeferredDisconnect ==> main.deferredTask)
      modifies this`mainResultTask, main
      ensures Valid() && main.state == Lands(old(main.state), e)
      ensures mainResultTask == (var r := Tells(old(main.state), e); if r.Some? then r else old(mainResultTask))
    {
      var r := main.OnEvent(e, fails);
      if r.Some? {
        mainResultTask := r;
      }
    }

    method OnFallbackEvent(e: Event, fails: bool)
      requires Valid() && e != RunConnect && e != Disconnect && fallbackPresent
      requires e == DeferredDisconnect ==> fallback.deferredTask
      modifies this`fallbackResultTask, fallback
      ensures Valid() && fallback.state == Lands(old(fallback.state), e)
      ensures fallbackResultTask == (var r := Tells(old(fallback.state), e); if r.Some? then r else old(fallbackResultTask))
    {
      var r := fallback.OnEvent(e, fails);
      if r.Some? {
        fallbackResultTask := r;
      }
    }

    method RunMainResultTask()
      requires Valid() && mainResultTask.Some?
      modifies this, main, fallback
      ensures Valid() && !stopped && starts == old(starts)
      ensures raised == if old(mainResultTask) == Some(Opened) then [Opened] else if old(failures) == 1 then [Failed] else []
    {
      HandleConnectResult(true, mainResultTask.value);
    }

    method RunFallbackResultTask()
      requires Valid() && fallbackResultTask.Some?
      modifies this, main, fallback
      ensures Valid() && !stopped && starts == old(starts)
      ensures raised == if old(fallbackResultTask) == Some(Opened) then [Opened] else if old(failures) == 1 then [Failed] else []
    {
      HandleConnectResult(false, fallbackResultTask.value);
    }

    /** `start_fallback_connection`, from the delay task, `elapsed` after the main connector was started. */
    method RunDelayTask(elapsed: nat, initOk: bool, openOk: bool) returns (timeout: Option<nat>)
      requires Valid() && delayTask
      modifies this, main, fallback
      ensures timeout.Some? <==> connectTimeout.Some?
      ensures timeout.Some? ==> connectTimeout.value / 10 <= timeout.value <= connectTimeout.value
      ensures Valid() && !stopped && old(starts) == 0 && starts == 1
      ensures raised == [] || (raised == [Failed] && failures == 2)
      ensures initOk && openOk && !old(fallback.pendingError) ==> raised == [] && fallback.state == Connecting
    {
      delayTask, fallbackTried := false, true;
      starts := starts + 1;
      timeout := if connectTimeout.Some? then Some(FallbackTimeout(connectTimeout.value, elapsed)) else None;
      var ok := fallback.Connect(initOk, openOk);
      if !ok {
        HandleConnectResult(false, Failed);
      }
    }

    /** `disconnect`. */
    method DisconnectAll()
      requires Valid()
      modifies this, main, fallback
      ensures Valid() && raised == old(raised) && starts == old(starts) && (old(raised) == [] ==> stopped)
    {
      if !mainHasResult && mainPresent {
        main.Stop();
      }
      mainResultTask := None;
      if fallbackTried && !fallbackHasResult && fallbackPresent {
        fallback.Stop();
      }
      delayTask, fallbackResultTask := false, None;
      if raised == [] {
        stopped := true;
      }
    }
  }

  // ---- Runs ----

  datatype Happening =
    | Upstream(ofMain: bool, event: Event, fails: bool)
    | MainResult
    | FallbackResult
    | Delay(elapsed: nat, initOk: bool, openOk: bool)
    | StopAll

  /**
   * Whatever happens, in whatever order: at most one result is raised, an error exactly when both
   * connectors failed; the fallback is started at most once; nothing is raised after a disconnect;
   * and unless disconnected, a result has been raised or something is still under way.
   */
  method Run(timeout: Option<nat>, initOk: bool, openOk: bool, happenings: seq<Happening>)
    returns (raised: seq<Outcome>, starts: nat, failures: nat, raisedAtStop: Option<nat>, busy: bool)
    ensures |raised| <= 1 && starts <= 1 && (raised == [Failed] <==> failures == 2)
    ensures raisedAtStop.Some? ==> |raised| == raisedAtStop.value
    ensures raisedAtStop.None? ==> (busy <==> raised == [])
  {
    var c := new FallbackableConnector(timeout, initOk, openOk);
    raisedAtStop := None;
    var i := 0;
    while i < |happenings|
      invariant fresh(c) && fresh(c.main) && fresh(c.fallback) && c.Valid()
      invariant raisedAtStop.None? ==> !c.stopped
      invariant raisedAtStop.Some? ==> |c.raised| == raisedAtStop.value && (c.stopped || c.raised != [])
    {
      match happenings[i] {
        case Upstream(ofMain, e, fails) =>
          if e != RunConnect && e != Disconnect {
            if ofMain && c.mainPresent && (e != DeferredDisconnect || c.main.deferredTask) {
              c.OnUpstreamEvent(true, e, fails);
            } else if !ofMain && c.fallbackPresent && (e != DeferredDisconnect || c.fallback.deferredTask) {
              c.OnUpstreamEvent(false, e, fails);
            }
          }
        case MainResult => if c.mainResultTask.Some? { c.RunMainResultTask(); }
        case FallbackResult => if c.fallbackResultTask.Some? { c.RunFallbackResultTask(); }
        case Delay(elapsed, ok, opens) => if c.delayTask { var _ := c.RunDelayTask(elapsed, ok, opens); }
        case StopAll =>
          c.DisconnectAll();
          raisedAtStop := Some(|c.raised|);
      }
      i := i + 1;
    }
    raised, starts, failures := c.raised, c.starts, c.failures;
    busy := (c.mainPresent && (c.main.state != Disconnected || c.mainResultTask.Some?)) || c.delayTask
            || (c.fallbackPresent && (c.fallback.state != Disconnected || c.fallbackResultTask.Some?));
  }
}
