/**
 * The two connection tables of the tunnel: connections indexed by the listener's id and by the
 * upstream's id, through connecting, closing from either side, and migration between upstreams.
 *
 * Connections are identified by a reference `R`; `live` holds what has not been deleted. Listeners
 * and upstreams are modelled by the events they raise, including those they raise from inside a
 * call. Ids of new connections have not been used before.
 */
module TunnelTables {
  import opened Prelude

  type Id = int

  const NON_ID: Id := -1

  datatype State =
    | WaitingAction | WaitingResolve | WaitingResponse | WaitingResponseMigrating
    | WaitingAccept | Connected | ConnectedMigrating | Rejected

  datatype Conn = Conn(clientId: Id, serverId: Id, state: State, migratingClientId: Id)

  datatype Tables<R(==)> = Tables(
    live: map<R, Conn>,
    byClient: map<Id, R>,
    byServer: map<Id, R>,
    usedClient: set<Id>,
    usedServer: set<Id>)

  // ---- The invariant ----

  /** Every entry is a live connection under its own id, so following it is safe. */
  ghost predicate Indexed<R>(t: Tables<R>) {
    && (forall i | i in t.byClient :: i != NON_ID && t.byClient[i] in t.live && t.live[t.byClient[i]].clientId == i)
    && (forall i | i in t.byServer :: i != NON_ID && t.byServer[i] in t.live && t.live[t.byServer[i]].serverId == i)
  }

  ghost predicate Distinct<R>(t: Tables<R>) {
    forall a, b | a in t.live && b in t.live && a != b ::
      && (t.live[a].clientId == t.live[b].clientId ==> t.live[a].clientId == NON_ID)
      && (t.live[a].serverId == t.live[b].serverId ==> t.live[a].serverId == NON_ID)
  }

  ghost predicate Phased(c: Conn) {
    && (c.state == WaitingResponseMigrating ==> c.clientId == NON_ID)
    && (c.state == WaitingResolve ==> c.serverId == NON_ID)
  }

  ghost predicate Sane<R>(t: Tables<R>) {
    forall r | r in t.live ::
      && Phased(t.live[r])
      && (t.live[r].clientId != NON_ID ==> t.live[r].clientId in t.usedClient)
      && (t.live[r].serverId != NON_ID ==> t.live[r].serverId in t.usedServer)
  }

  ghost predicate Inv<R>(t: Tables<R>) {
    Indexed(t) && Distinct(t) && Sane(t)
  }

  /** Nothing is leaked: every live connection can still be found. */
  ghost predicate Found<R>(t: Tables<R>, r: R) {
    r in t.live &&
    ((t.live[r].clientId in t.byClient && t.byClient[t.live[r].clientId] == r)
     || (t.live[r].serverId in t.byServer && t.byServer[t.live[r].serverId] == r))
  }

  ghost predicate NoLeak<R>(t: Tables<R>) {
    forall r | r in t.live :: Found(t, r)
  }

  // ---- Primitive steps ----

  function Update<R>(t: Tables<R>, r: R, c: Conn): Tables<R> {
    t.(live := t.live[r := c])
  }

  /** `add_connection`. */
  function Add<R>(t: Tables<R>, r: R): Tables<R>
    requires r in t.live
  {
    var c := t.live[r];
    t.(byClient := if c.clientId != NON_ID then t.byClient[c.clientId := r] else t.byClient,
       byServer := if c.serverId != NON_ID then t.byServer[c.serverId := r] else t.byServer)
  }

  /** The connection `destroy_connection` finds. */
  function Find<R>(t: Tables<R>, clientId: Id, serverId: Id): Option<R> {
    if clientId != NON_ID && clientId in t.byClient then Some(t.byClient[clientId])
    else if serverId != NON_ID && serverId in t.byServer then Some(t.byServer[serverId])
    else None
  }

  function Delete<R>(t: Tables<R>, r: R): Tables<R>
    requires r in t.live
  {
    t.(live := t.live - {r}, byClient := t.byClient - {t.live[r].clientId}, byServer := t.byServer - {t.live[r].serverId})
  }

  /** A connection is bound to a new connection of an upstream. */
  function Bind<R>(t: Tables<R>, r: R, serverId: Id): Tables<R>
    requires r in t.live
  {
    Add(Update(t, r, t.live[r].(serverId := serverId, state := WaitingResponse)), r)
      .(usedServer := t.usedServer + {serverId})
  }

  /** Deleting a connection removes its own entries from both tables, and nobody else's. */
  lemma DeleteIsExact<R>(t: Tables<R>, r: R)
    requires Inv(t) && r in t.live
    ensures var d := Delete(t, r);
      && Inv(d) && r !in d.live && (forall x | x in t.live && x != r :: x in d.live && d.live[x] == t.live[x])
      && (forall i :: i in d.byClient <==> i in t.byClient && t.byClient[i] != r)
      && (forall i :: i in d.byServer <==> i in t.byServer && t.byServer[i] != r)
  {
  }

  lemma FindIsOwner<R>(t: Tables<R>, r: R)
    requires Inv(t) && r in t.live
    ensures var f := Find(t, t.live[r].clientId, t.live[r].serverId); f.Some? ==> f.value == r
    ensures Found(t, r) ==> Find(t, t.live[r].clientId, t.live[r].serverId) == Some(r)
  {
  }

  lemma ForgetKeeps<R>(t: Tables<R>, d: Tables<R>)
    requires Inv(t) && d == t.(byClient := d.byClient, byServer := d.byServer)
    requires forall i | i in d.byClient :: i in t.byClient && t.byClient[i] == d.byClient[i]
    requires forall i | i in d.byServer :: i in t.byServer && t.byServer[i] == d.byServer[i]
    ensures Inv(d)
  {
  }

  lemma StateKeeps<R>(t: Tables<R>, r: R, state: State)
    requires Inv(t) && r in t.live && Phased(t.live[r].(state := state))
    ensures Inv(Update(t, r, t.live[r].(state := state)))
  {
  }

  /**
   * Binding keeps the tables sound exactly when the connection has no entry under an older upstream
   * id: the second of two completions would leave the first one's entry behind.
   */
  lemma BindKeeps<R>(t: Tables<R>, r: R, serverId: Id)
    requires Inv(t) && r in t.live && serverId != NON_ID && serverId !in t.usedServer
    requires t.live[r].state != WaitingResponseMigrating
    ensures Inv(Bind(t, r, serverId)) <==>
            !(t.live[r].serverId in t.byServer && t.byServer[t.live[r].serverId] == r)
  {
    var d := Bind(t, r, serverId);
    var earlier := t.live[r].serverId;
    if earlier in t.byServer && t.byServer[earlier] == r {
      assert earlier in d.byServer && d.live[d.byServer[earlier]].serverId != earlier;
    } else {
      assert forall i | i in t.byServer :: t.byServer[i] != r;
      assert Indexed(d) && Distinct(d) && Sane(d);
    }
  }

  // ---- Events ----

  /** `destroy_connection`. */
  function Destroy<R>(t: Tables<R>, clientId: Id, serverId: Id): (d: Tables<R>)
    requires Inv(t)
    ensures Inv(d)
  {
    var found := Find(t, clientId, serverId);
    if found.Some? then
      DeleteIsExact(t, found.value);
      Delete(t, found.value)
    else t
  }

  // A close event that a listener may raise from inside a call to it.
  datatype Nested = Later | Now(sessionClosed: bool, upstreamAlive: bool)

  /** `CLIENT_EVENT_CONNECTION_CLOSED`. */
  function ClientClosed<R>(t: Tables<R>, id: Id, sessionClosed: bool, upstreamAlive: bool): (d: Tables<R>)
    requires Inv(t)
    ensures Inv(d)
  {
    if id !in t.byClient then t
    else
      var c := t.live[t.byClient[id]];
      if sessionClosed || c.serverId !in t.byServer || !upstreamAlive then Destroy(t, id, c.serverId)
      else
        ForgetKeeps(t, t.(byClient := t.byClient - {id}));
        t.(byClient := t.byClient - {id})
  }

  /** A refused connect request: the connection is looked up again, since the listener may have closed it. */
  function Reject<R>(t: Tables<R>, id: Id): (d: Tables<R>)
    requires Inv(t)
    ensures Inv(d)
  {
    if id in t.byClient then
      StateKeeps(t, t.byClient[id], Rejected);
      Update(t, t.byClient[id], t.live[t.byClient[id]].(state := Rejected))
    else t
  }

  /** `close_client_side_connection`, and what it submits. */
  function CloseClient<R>(t: Tables<R>, r: R, listenerAlive: bool, async: bool, nested: Nested): (d: Tables<R>)
    requires Inv(t) && r in t.live
    ensures Inv(d)
  {
    var c := t.live[r];
    var closed := if nested.Now? && !async then ClientClosed(t, c.clientId, nested.sessionClosed, nested.upstreamAlive) else t;
    if !listenerAlive then Destroy(t, c.clientId, c.serverId)
    else match c.state
      case WaitingAccept | Connected | ConnectedMigrating | Rejected => closed
      case WaitingResolve | WaitingResponse | WaitingAction => if async then t else Reject(closed, c.clientId)
      case WaitingResponseMigrating => t
  }

  /** `CLIENT_EVENT_CONNECT_REQUEST`. */
  function ConnectRequest<R>(t: Tables<R>, r: R, id: Id): (d: Tables<R>)
    requires Inv(t) && r !in t.live && id != NON_ID && id !in t.usedClient
    ensures Inv(d)
  {
    Add(Update(t, r, Conn(id, NON_ID, WaitingAction, NON_ID)), r).(usedClient := t.usedClient + {id})
  }

  // What `complete_connect_request` comes to: the name is being resolved, the upstream opened a
  // connection, or the connection is refused.
  datatype Outcome = Resolving | Opened(serverId: Id) | Refused

  /** `complete_connect_request`. */
  function Complete<R>(t: Tables<R>, id: Id, outcome: Outcome, listenerAlive: bool): (d: Tables<R>)
    requires Inv(t) && (id in t.byClient ==> t.live[t.byClient[id]].serverId == NON_ID)
    requires outcome.Opened? ==> outcome.serverId != NON_ID && outcome.serverId !in t.usedServer
    ensures Inv(d)
  {
    if id !in t.byClient then t
    else
      var r := t.byClient[id];
      match outcome
      case Resolving =>
        StateKeeps(t, r, WaitingResolve);
        Update(t, r, t.live[r].(state := WaitingResolve))
      case Opened(serverId) =>
        BindKeeps(t, r, serverId);
        Bind(t, r, serverId)
      case Refused => CloseClient(t, r, listenerAlive, true, Later)
  }

  /** `on_destination_resolve_result`: the name has an address and the upstream opened `serverId`, or not. */
  function Resolved<R>(t: Tables<R>, id: Id, serverId: Id, listenerAlive: bool, nested: Nested): (d: Tables<R>)
    requires Inv(t) && (serverId != NON_ID ==> serverId !in t.usedServer)
    ensures Inv(d)
  {
    if id !in t.byClient then t
    else
      var r := t.byClient[id];
      if t.live[r].state != WaitingResolve || serverId == NON_ID then CloseClient(t, r, listenerAlive, false, nested)
      else
        BindKeeps(t, r, serverId);
        Bind(t, r, serverId)
  }

  /** `CLIENT_EVENT_CONNECTION_ACCEPTED`. */
  function Accepted<R>(t: Tables<R>, id: Id, listenerAlive: bool): (d: Tables<R>)
    requires Inv(t)
    ensures Inv(d)
  {
    if id !in t.byClient then t
    else
      var r := t.byClient[id];
      if t.live[r].state != WaitingAccept then CloseClient(t, r, listenerAlive, true, Later)
      else
        StateKeeps(t, r, Connected);
        Update(t, r, t.live[r].(state := Connected))
  }

  /** `initiate_connection_migration` on a read event: `twin` is the connection to the other upstream. */
  function Migrate<R>(t: Tables<R>, id: Id, twin: R, serverId: Id, listenerAlive: bool, udp: bool): (d: Tables<R>)
    requires Inv(t) && twin !in t.live && (serverId != NON_ID ==> serverId !in t.usedServer)
    ensures Inv(d)
  {
    if id !in t.byClient then t
    else
      var r := t.byClient[id];
      if serverId == NON_ID then CloseClient(t, r, listenerAlive, true, Later)
      else
        var u := Add(Update(t, twin, Conn(NON_ID, serverId, WaitingResponseMigrating, id)), twin)
                   .(usedServer := t.usedServer + {serverId});
        TwinKeeps(t, twin, id, serverId);
        if !udp && !listenerAlive then CloseClient(u, r, false, true, Later)
        else
          StateKeeps(u, r, ConnectedMigrating);
          Update(u, r, u.live[r].(state := ConnectedMigrating))
  }

  lemma TwinKeeps<R>(t: Tables<R>, twin: R, id: Id, serverId: Id)
    requires Inv(t) && twin !in t.live && serverId != NON_ID && serverId !in t.usedServer
    ensures Inv(Add(Update(t, twin, Conn(NON_ID, serverId, WaitingResponseMigrating, id)), twin)
                  .(usedServer := t.usedServer + {serverId}))
  {
  }

  /** `SERVER_EVENT_CONNECTION_CLOSED`. */
  function ServerClosed<R>(t: Tables<R>, id: Id, listenerAlive: bool, nested: Nested): (d: Tables<R>)
    requires Inv(t)
    ensures Inv(d)
  {
    if id !in t.byServer then Destroy(t, NON_ID, id)
    else
      var r := t.byServer[id];
      var c := t.live[r];
      if c.clientId in t.byClient && listenerAlive then
        ForgetKeeps(t, t.(byServer := t.byServer - {id}));
        CloseClient(t.(byServer := t.byServer - {id}), r, true, false, nested)
      else Destroy(t, c.clientId, c.serverId)
  }

  /** `SERVER_EVENT_ERROR` on one connection. */
  function ServerError<R>(t: Tables<R>, id: Id, listenerAlive: bool, nested: Nested): (d: Tables<R>)
    requires Inv(t)
    ensures Inv(d)
  {
    if id !in t.byServer then Destroy(t, NON_ID, id)
    else
      var r := t.byServer[id];
      var c := t.live[r];
      if c.state == WaitingResponseMigrating then t
      else if c.clientId in t.byClient then
        ForgetKeeps(t, t.(byServer := t.byServer - {id}));
        CloseClient(t.(byServer := t.byServer - {id}), r, listenerAlive, false, nested)
      else Destroy(t, c.clientId, c.serverId)
  }

  /** The end of a migration: the twin takes the client id over from the source. */
  function Swap<R>(t: Tables<R>, r: R, src: R): Tables<R>
    requires r in t.live && src in t.live
  {
    var c, s := t.live[r], t.live[src];
    Add(t.(live := t.live[r := c.(clientId := s.clientId, state := Connected, migratingClientId := NON_ID)]
                         [src := s.(clientId := c.clientId)]), r)
  }

  lemma SwapKeeps<R>(t: Tables<R>, r: R, src: R)
    requires Inv(t) && r in t.live && t.live[r].state == WaitingResponseMigrating
    requires src in t.live && t.live[src].clientId in t.byClient && t.byClient[t.live[src].clientId] == src
    ensures r != src && Inv(Swap(t, r, src))
  {
  }

  /** `SERVER_EVENT_CONNECTION_OPENED`; `closesNow` says that the source's upstream is there to close it. */
  function ServerOpened<R>(t: Tables<R>, id: Id, closesNow: bool): (d: Tables<R>)
    requires Inv(t)
    ensures Inv(d)
  {
    if id !in t.byServer then t
    else
      var r := t.byServer[id];
      var c := t.live[r];
      match c.state
      case WaitingResponse =>
        StateKeeps(t, r, WaitingAccept);
        Update(t, r, c.(state := WaitingAccept))
      case WaitingResponseMigrating =>
        if c.migratingClientId !in t.byClient then t
        else
          var src := t.byClient[c.migratingClientId];
          SwapKeeps(t, r, src);
          var swapped := Swap(t, r, src);
          if closesNow then ServerClosed(swapped, t.live[src].serverId, true, Later) else swapped
      case _ => t
  }

  /** A switch is due: `id` is a twin that opened, and its source is still there. */
  ghost predicate Switching<R>(t: Tables<R>, id: Id) {
    && id in t.byServer && t.byServer[id] in t.live && t.live[t.byServer[id]].state == WaitingResponseMigrating
    && t.live[t.byServer[id]].migratingClientId in t.byClient
    && t.byClient[t.live[t.byServer[id]].migratingClientId] in t.live
  }

  /**
   * After a switch the client's id leads to the twin, and nobody else was touched. The source is gone
   * if its upstream closed it at once, and otherwise found under its upstream id only.
   */
  lemma SwitchIsExact<R>(t: Tables<R>, id: Id, closesNow: bool)
    requires Inv(t) && Switching(t, id)
    ensures var r := t.byServer[id];
      var clientId := t.live[r].migratingClientId;
      var src := t.byClient[clientId];
      var d := ServerOpened(t, id, closesNow);
      && r in d.live && d.live[r] == Conn(clientId, id, Connected, NON_ID)
      && clientId in d.byClient && d.byClient[clientId] == r && id in d.byServer && d.byServer[id] == r
      && (src !in d.live <==> closesNow && t.live[src].serverId in t.byServer)
      && (src in d.live ==> d.live[src] == t.live[src].(clientId := NON_ID) && d.byServer == t.byServer)
      && (forall i | i != clientId :: i in d.byClient <==> i in t.byClient)
      && (forall i | i != t.live[src].serverId :: i in d.byServer <==> i in t.byServer)
      && forall x | x in t.live && x != r && x != src :: x in d.live && d.live[x] == t.live[x]
  {
    var r := t.byServer[id];
    var src := t.byClient[t.live[r].migratingClientId];
    SwapKeeps(t, r, src);
    var swapped := Swap(t, r, src);
    if t.live[src].serverId in t.byServer {
      FindIsOwner(swapped, src);
      DeleteIsExact(swapped, src);
    }
  }

  /** An upstream that closes the source later leads to the same tables, whatever the listener does by then. */
  lemma SwitchClosesLater<R>(t: Tables<R>, id: Id, listenerAlive: bool, nested: Nested)
    requires Inv(t) && Switching(t, id)
    ensures var serverId := t.live[t.byClient[t.live[t.byServer[id]].migratingClientId]].serverId;
      serverId in t.byServer ==>
        ServerClosed(ServerOpened(t, id, false), serverId, listenerAlive, nested) == ServerOpened(t, id, true)
  {
    var r := t.byServer[id];
    var src := t.byClient[t.live[r].migratingClientId];
    SwapKeeps(t, r, src);
    SourceIsDestroyed(Swap(t, r, src), src, listenerAlive, nested);
    SourceIsDestroyed(Swap(t, r, src), src, true, Later);
  }

  lemma SourceIsDestroyed<R>(t: Tables<R>, src: R, listenerAlive: bool, nested: Nested)
    requires Inv(t) && src in t.live && t.live[src].clientId == NON_ID
    ensures var c := t.live[src];
      c.serverId in t.byServer && t.byServer[c.serverId] == src ==>
        ServerClosed(t, c.serverId, listenerAlive, nested) == Destroy(t, NON_ID, c.serverId)
  {
  }

  // ---- Runs ----

  datatype Event<R> =
    | OnConnectRequest(r: R, id: Id)
    | OnComplete(id: Id, outcome: Outcome, listenerAlive: bool)
    | OnResolved(id: Id, serverId: Id, listenerAlive: bool, nested: Nested)
    | OnAccepted(id: Id, listenerAlive: bool)
    | OnClientClosed(id: Id, sessionClosed: bool, upstreamAlive: bool)
    | OnReset(id: Id, listenerAlive: bool, async: bool, nested: Nested)
    | OnMigrate(id: Id, twin: R, serverId: Id, listenerAlive: bool, udp: bool)
    | OnServerOpened(id: Id, closesNow: bool)
    | OnServerClosed(id: Id, listenerAlive: bool, nested: Nested)
    | OnServerError(id: Id, listenerAlive: bool, nested: Nested)

  /** New objects and new ids are new, and a request is completed only while it has no upstream id. */
  ghost predicate Enabled<R>(t: Tables<R>, e: Event<R>)
    requires Inv(t)
  {
    match e
    case OnConnectRequest(r, id) => r !in t.live && id != NON_ID && id !in t.usedClient
    case OnComplete(id, outcome, _) =>
      && (id in t.byClient ==> t.live[t.byClient[id]].serverId == NON_ID)
      && (outcome.Opened? ==> outcome.serverId != NON_ID && outcome.serverId !in t.usedServer)
    case OnResolved(_, serverId, _, _) => serverId != NON_ID ==> serverId !in t.usedServer
    case OnMigrate(_, twin, serverId, _, _) => twin !in t.live && (serverId != NON_ID ==> serverId !in t.usedServer)
    case _ => true
  }

  function Next<R>(t: Tables<R>, e: Event<R>): (d: Tables<R>)
    requires Inv(t) && Enabled(t, e)
    ensures Inv(d)
  {
    match e
    case OnConnectRequest(r, id) => ConnectRequest(t, r, id)
    case OnComplete(id, outcome, listenerAlive) => Complete(t, id, outcome, listenerAlive)
    case OnResolved(id, serverId, listenerAlive, nested) => Resolved(t, id, serverId, listenerAlive, nested)
    case OnAccepted(id, listenerAlive) => Accepted(t, id, listenerAlive)
    case OnClientClosed(id, sessionClosed, upstreamAlive) => ClientClosed(t, id, sessionClosed, upstreamAlive)
    case OnReset(id, listenerAlive, async, nested) =>
      if id in t.byClient then CloseClient(t, t.byClient[id], listenerAlive, async, nested) else t
    case OnMigrate(id, twin, serverId, listenerAlive, udp) => Migrate(t, id, twin, serverId, listenerAlive, udp)
    case OnServerOpened(id, closesNow) => ServerOpened(t, id, closesNow)
    case OnServerClosed(id, listenerAlive, nested) => ServerClosed(t, id, listenerAlive, nested)
    case OnServerError(id, listenerAlive, nested) => ServerError(t, id, listenerAlive, nested)
  }

  /** A connect request that everybody agrees to ends up connected, under both ids. */
  lemma HandshakeConnects<R>(t: Tables<R>, r: R, id: Id, serverId: Id)
    requires Inv(t) && r !in t.live && id != NON_ID && id !in t.usedClient && serverId != NON_ID && serverId !in t.usedServer
    ensures var t1 := ConnectRequest(t, r, id);
      id in t1.byClient && t1.live[t1.byClient[id]].serverId == NON_ID
      && var d := Accepted(ServerOpened(Complete(t1, id, Opened(serverId), true), serverId, true), id, true);
      && r in d.live && d.live[r] == Conn(id, serverId, Connected, NON_ID)
      && d.byClient == t.byClient[id := r] && d.byServer == t.byServer[serverId := r]
  {
  }

  /**
   * A connection whose two sides both close is deleted, and it alone, whichever side comes first and
   * whether the listener answers from inside the call or later.
   */
  lemma ClosingDeletes<R>(t: Tables<R>, r: R, sessionClosed: bool, upstreamAlive: bool, nested: Nested)
    requires Inv(t) && r in t.live && t.live[r].clientId in t.byClient && t.byClient[t.live[r].clientId] == r
    requires t.live[r].serverId in t.byServer && t.byServer[t.live[r].serverId] == r
    ensures var c := t.live[r];
      && ServerClosed(ClientClosed(t, c.clientId, false, true), c.serverId, true, nested).live == t.live - {r}
      && ClientClosed(ServerClosed(t, c.serverId, true, Later), c.clientId, sessionClosed, upstreamAlive).live == t.live - {r}
      && ClientClosed(ServerError(t, c.serverId, true, Later), c.clientId, sessionClosed, upstreamAlive).live == t.live - {r}
      && ServerClosed(t, c.serverId, true, Now(sessionClosed, upstreamAlive)).live == t.live - {r}
  {
    var c := t.live[r];
    var u := t.(byServer := t.byServer - {c.serverId});
    ForgetKeeps(t, u);
    ForgetKeeps(t, t.(byClient := t.byClient - {c.clientId}));
    assert c.state != WaitingResponseMigrating;
    assert ServerClosed(t, c.serverId, true, Later) == CloseClient(u, r, true, false, Later);
  }

  /** A migration that succeeds hands the client's id to the new connection and deletes the old one. */
  lemma MigrationSwitches<R>(t: Tables<R>, id: Id, twin: R, serverId: Id, udp: bool)
    requires Inv(t) && id in t.byClient && twin !in t.live && serverId != NON_ID && serverId !in t.usedServer
    requires t.live[t.byClient[id]].serverId in t.byServer
    ensures var src := t.byClient[id];
      var d := ServerOpened(Migrate(t, id, twin, serverId, true, udp), serverId, true);
      && d.live == t.live[twin := Conn(id, serverId, Connected, NON_ID)] - {src}
      && d.byClient == t.byClient[id := twin]
      && d.byServer == t.byServer[serverId := twin] - {t.live[src].serverId}
  {
    var src := t.byClient[id];
    TwinKeeps(t, twin, id, serverId);
    var m := Migrate(t, id, twin, serverId, true, udp);
    assert m.byServer == t.byServer[serverId := twin] && m.byClient == t.byClient;
    SwapKeeps(m, twin, src);
    var swapped := Swap(m, twin, src);
    FindIsOwner(swapped, src);
  }

  // ---- Leaks ----

  /** A switch loses its source if the source's upstream side is already gone. */
  ghost predicate Orphans<R>(t: Tables<R>, e: Event<R>)
    requires Inv(t)
  {
    && e.OnServerOpened? && e.id in t.byServer && t.live[t.byServer[e.id]].state == WaitingResponseMigrating
    && t.live[t.byServer[e.id]].migratingClientId in t.byClient
    && t.live[t.byClient[t.live[t.byServer[e.id]].migratingClientId]].serverId !in t.byServer
  }

  lemma DestroyNoLeak<R>(t: Tables<R>, clientId: Id, serverId: Id)
    requires Inv(t) && NoLeak(t)
    ensures NoLeak(Destroy(t, clientId, serverId))
  {
  }

  lemma ClientClosedNoLeak<R>(t: Tables<R>, id: Id, sessionClosed: bool, upstreamAlive: bool)
    requires Inv(t) && NoLeak(t)
    ensures NoLeak(ClientClosed(t, id, sessionClosed, upstreamAlive))
  {
    if id in t.byClient {
      DestroyNoLeak(t, id, t.live[t.byClient[id]].serverId);
    }
  }

  lemma CloseClientNoLeak<R>(t: Tables<R>, r: R, listenerAlive: bool, async: bool, nested: Nested)
    requires Inv(t) && NoLeak(t) && r in t.live
    ensures NoLeak(CloseClient(t, r, listenerAlive, async, nested))
  {
    var c := t.live[r];
    DestroyNoLeak(t, c.clientId, c.serverId);
    if nested.Now? && !async {
      ClientClosedNoLeak(t, c.clientId, nested.sessionClosed, nested.upstreamAlive);
    }
  }

  lemma ServerSideNoLeak<R>(t: Tables<R>, id: Id, listenerAlive: bool, nested: Nested)
    requires Inv(t) && NoLeak(t)
    ensures NoLeak(ServerClosed(t, id, listenerAlive, nested)) && NoLeak(ServerError(t, id, listenerAlive, nested))
  {
    if id in t.byServer {
      var r := t.byServer[id];
      var c, u := t.live[r], t.(byServer := t.byServer - {id});
      ForgetKeeps(t, u);
      DestroyNoLeak(t, c.clientId, c.serverId);
      if c.clientId in t.byClient {
        assert NoLeak(u);
        CloseClientNoLeak(u, r, listenerAlive, false, nested);
        CloseClientNoLeak(u, r, true, false, nested);
      }
    }
  }

  lemma MigrateNoLeak<R>(t: Tables<R>, e: Event<R>)
    requires Inv(t) && NoLeak(t) && e.OnMigrate? && Enabled(t, e)
    ensures NoLeak(Next(t, e))
  {
    if e.id in t.byClient {
      var r := t.byClient[e.id];
      CloseClientNoLeak(t, r, e.listenerAlive, true, Later);
      if e.serverId != NON_ID {
        var u := Add(Update(t, e.twin, Conn(NON_ID, e.serverId, WaitingResponseMigrating, e.id)), e.twin)
                   .(usedServer := t.usedServer + {e.serverId});
        TwinKeeps(t, e.twin, e.id, e.serverId);
        assert NoLeak(u);
        CloseClientNoLeak(u, r, false, true, Later);
      }
    }
  }

  lemma OpenedNoLeak<R>(t: Tables<R>, e: Event<R>)
    requires Inv(t) && NoLeak(t) && e.OnServerOpened?
    ensures NoLeak(Next(t, e)) <==> !Orphans(t, e)
  {
    if e.id in t.byServer && t.live[t.byServer[e.id]].state == WaitingResponseMigrating
       && t.live[t.byServer[e.id]].migratingClientId in t.byClient {
      var r := t.byServer[e.id];
      var src := t.byClient[t.live[r].migratingClientId];
      var serverId := t.live[src].serverId;
      SwapKeeps(t, r, src);
      var swapped := Swap(t, r, src);
      if serverId in t.byServer {
        assert NoLeak(swapped);
        ServerSideNoLeak(swapped, serverId, true, Later);
      } else {
        assert src in swapped.live && !Found(swapped, src);
      }
    }
  }

  /** Every event keeps all live connections findable, except that one switch. */
  lemma NoLeakExactly<R>(t: Tables<R>, e: Event<R>)
    requires Inv(t) && NoLeak(t) && Enabled(t, e)
    ensures NoLeak(Next(t, e)) <==> !Orphans(t, e)
  {
    match e
    case OnConnectRequest(_, _) =>
    case OnComplete(id, _, listenerAlive) =>
      if id in t.byClient { CloseClientNoLeak(t, t.byClient[id], listenerAlive, true, Later); }
    case OnResolved(id, _, listenerAlive, nested) =>
      if id in t.byClient { CloseClientNoLeak(t, t.byClient[id], listenerAlive, false, nested); }
    case OnAccepted(id, listenerAlive) =>
      if id in t.byClient { CloseClientNoLeak(t, t.byClient[id], listenerAlive, true, Later); }
    case OnClientClosed(id, sessionClosed, upstreamAlive) => ClientClosedNoLeak(t, id, sessionClosed, upstreamAlive);
    case OnReset(id, listenerAlive, async, nested) =>
      if id in t.byClient { CloseClientNoLeak(t, t.byClient[id], listenerAlive, async, nested); }
    case OnMigrate(_, _, _, _, _) => MigrateNoLeak(t, e);
    case OnServerOpened(_, _) => OpenedNoLeak(t, e);
    case OnServerClosed(id, listenerAlive, nested) => ServerSideNoLeak(t, id, listenerAlive, nested);
    case OnServerError(id, listenerAlive, nested) => ServerSideNoLeak(t, id, listenerAlive, nested);
  }

  ghost predicate Possible<R>(t: Tables<R>, events: seq<Event<R>>)
    requires Inv(t)
    decreases |events|
  {
    events == [] || (Enabled(t, events[0]) && Possible(Next(t, events[0]), events[1..]))
  }

  ghost function After<R>(t: Tables<R>, events: seq<Event<R>>): (d: Tables<R>)
    requires Inv(t) && Possible(t, events)
    ensures Inv(d)
    decreases |events|
  {
    if events == [] then t else After(Next(t, events[0]), events[1..])
  }

  function Empty<R>(): (t: Tables<R>)
    ensures Inv(t) && NoLeak(t)
  {
    Tables(map[], map[], map[], {}, {})
  }

  /** In every run, lookups by either id find live connections under their own id, and each its own. */
  lemma EveryRunIsSafe<R>(events: seq<Event<R>>)
    requires Possible(Empty<R>(), events)
    ensures var d := After(Empty<R>(), events);
      && (forall i | i in d.byClient :: d.byClient[i] in d.live && d.live[d.byClient[i]].clientId == i)
      && (forall i | i in d.byServer :: d.byServer[i] in d.live && d.live[d.byServer[i]].serverId == i)
      && (forall r | r in d.live :: var f := Find(d, d.live[r].clientId, d.live[r].serverId); f.None? || f.value == r)
      && (forall a, b | a in d.live && b in d.live && a != b ::
            && (d.live[a].clientId != NON_ID ==> d.live[a].clientId != d.live[b].clientId)
            && (d.live[a].serverId != NON_ID ==> d.live[a].serverId != d.live[b].serverId))
  {
    var d := After(Empty<R>(), events);
    forall r | r in d.live ensures var f := Find(d, d.live[r].clientId, d.live[r].serverId); f.None? || f.value == r {
      FindIsOwner(d, r);
    }
  }

  lemma Step<R>(t: Tables<R>, e: Event<R>, rest: seq<Event<R>>)
    requires Inv(t) && Enabled(t, e) && Possible(Next(t, e), rest)
    ensures Possible(t, [e] + rest) && After(t, [e] + rest) == After(Next(t, e), rest)
  {
    assert ([e] + rest)[1..] == rest;
  }

  function OneConnected(): Tables<int> {
    Tables(map[0 := Conn(1, 10, Connected, NON_ID)], map[1 := 0], map[10 := 0], {1}, {10})
  }

  lemma ReachOneConnected(rest: seq<Event<int>>) returns (events: seq<Event<int>>)
    requires Possible(OneConnected(), rest)
    ensures Possible(Empty<int>(), events) && After(Empty<int>(), events) == After(OneConnected(), rest)
  {
    var t0 := ConnectRequest(Empty<int>(), 0, 1);
    var t1 := Complete(t0, 1, Opened(10), true);
    var t2 := ServerOpened(t1, 10, true);
    assert Accepted(t2, 1, true) == OneConnected();
    Step(t2, OnAccepted(1, true), rest);
    events := [OnAccepted(1, true)] + rest;
    Step(t1, OnServerOpened(10, true), events);
    events := [OnServerOpened(10, true)] + events;
    Step(t0, OnComplete(1, Opened(10), true), events);
    events := [OnComplete(1, Opened(10), true)] + events;
    Step(Empty<int>(), OnConnectRequest(0, 1), events);
    events := [OnConnectRequest(0, 1)] + events;
  }

  /**
   * Why a request must not be completed twice: once it is connected, which can happen, a second
   * completion leaves the entry of the first one behind.
   */
  lemma SecondCompletionBreaks(serverId: Id) returns (events: seq<Event<int>>)
    requires serverId != NON_ID && serverId != 10
    ensures Possible(Empty<int>(), events) && After(Empty<int>(), events) == OneConnected()
    ensures 0 in OneConnected().live && !Inv(Bind(OneConnected(), 0, serverId))
  {
    events := ReachOneConnected([]);
    BindKeeps(OneConnected(), 0, serverId);
  }

  // The source's upstream side ended while the twin was connecting.
  function HalfMigrated(): Tables<int> {
    Tables(map[0 := Conn(1, 10, ConnectedMigrating, NON_ID), 1 := Conn(NON_ID, 11, WaitingResponseMigrating, 1)],
           map[1 := 0], map[11 := 1], {1}, {10, 11})
  }

  lemma LeakFromHalfMigrated() returns (events: seq<Event<int>>)
    ensures Inv(HalfMigrated()) && Possible(HalfMigrated(), events) && !NoLeak(After(HalfMigrated(), events))
  {
    NoLeakExactly(HalfMigrated(), OnServerOpened(11, true));
    Step(HalfMigrated(), OnServerOpened(11, true), []);
    events := [OnServerOpened(11, true)] + [];
  }

  function Migrating(): Tables<int> {
    HalfMigrated().(byServer := map[10 := 0, 11 := 1])
  }

  lemma MigratingFromConnected()
    ensures Inv(OneConnected()) && Migrate(OneConnected(), 1, 1, 11, true, false) == Migrating()
  {
  }

  lemma HalfFromMigrating()
    ensures Inv(Migrating()) && ServerClosed(Migrating(), 10, true, Later) == HalfMigrated()
  {
  }

  lemma LeakFromConnected() returns (events: seq<Event<int>>)
    ensures Possible(OneConnected(), events) && !NoLeak(After(OneConnected(), events))
  {
    events := LeakFromHalfMigrated();
    MigratingFromConnected();
    HalfFromMigrating();
    Step(Migrating(), OnServerClosed(10, true, Later), events);
    events := [OnServerClosed(10, true, Later)] + events;
    Step(OneConnected(), OnMigrate(1, 1, 11, true, false), events);
    events := [OnMigrate(1, 1, 11, true, false)] + events;
  }

  /** The leak can be reached: the source's upstream side ends before the twin's begins. */
  lemma LeakIsReachable() returns (events: seq<Event<int>>)
    ensures Possible(Empty<int>(), events) && !NoLeak(After(Empty<int>(), events))
  {
    var rest := LeakFromConnected();
    events := ReachOneConnected(rest);
  }

  lemma SomeId(ids: set<Id>)
    requires ids != {}
    ensures exists id :: id in ids
  {
    assert (forall id :: id !in ids) ==> ids == {};
  }

  // ---- The objects ----

  class VpnConnection {
    var clientId: Id
    var serverId: Id
    var state: State
    var migratingClientId: Id

    constructor (clientId: Id, serverId: Id, state: State, migratingClientId: Id)
      ensures View() == Conn(clientId, serverId, state, migratingClientId)
    {
      this.clientId, this.serverId, this.state, this.migratingClientId := clientId, serverId, state, migratingClientId;
    }

    ghost function View(): Conn
      reads this
    {
      Conn(clientId, serverId, state, migratingClientId)
    }
  }

  class Tunnel {
    var byClient: map<Id, VpnConnection>
    var byServer: map<Id, VpnConnection>
    ghost var live: set<VpnConnection>
    ghost var usedClient: set<Id>
    ghost var usedServer: set<Id>

    constructor ()
      ensures View() == Empty<VpnConnection>()
    {
      byClient, byServer, live, usedClient, usedServer := map[], map[], {}, {}, {};
    }

    ghost function View(): Tables<VpnConnection>
      reads this, live
    {
      Tables(map c | c in live :: c.View(), byClient, byServer, usedClient, usedServer)
    }

    /** `add_connection`. */
    method AddConnection(conn: VpnConnection)
      requires conn in live
      modifies this`byClient, this`byServer
      ensures View() == Add(old(View()), conn)
    {
      if conn.clientId != NON_ID {
        byClient := byClient[conn.clientId := conn];
      }
      if conn.serverId != NON_ID {
        byServer := byServer[conn.serverId := conn];
      }
    }

    /** `destroy_connection`. */
    method DestroyConnection(clientId: Id, serverId: Id)
      requires Inv(View())
      modifies this`byClient, this`byServer, this`live
      ensures View() == Destroy(old(View()), clientId, serverId)
    {
      var conn: VpnConnection?;
      conn := null;
      if clientId != NON_ID && clientId in byClient {
        conn := byClient[clientId];
      }
      if conn == null && serverId != NON_ID && serverId in byServer {
        conn := byServer[serverId];
      }
      if conn != null {
        byClient := byClient - {conn.clientId};
        byServer := byServer - {conn.serverId};
        live := live - {conn};
      }
    }

    /** `CLIENT_EVENT_CONNECTION_CLOSED`. */
    method OnClientClosed(id: Id, sessionClosed: bool, upstreamAlive: bool)
      requires Inv(View())
      modifies this`byClient, this`byServer, this`live
      ensures View() == ClientClosed(old(View()), id, sessionClosed, upstreamAlive)
    {
      if id in byClient {
        var conn := byClient[id];
        if sessionClosed || conn.serverId !in byServer || !upstreamAlive {
          DestroyConnection(id, conn.serverId);
        } else {
          byClient := byClient - {id};
        }
      }
    }

    method SetState(conn: VpnConnection, state: State)
      requires conn in live
      modifies conn`state
      ensures View() == Update(old(View()), conn, old(conn.View()).(state := state))
    {
      conn.state := state;
    }

    /** `close_client_side_connection`. */
    method CloseClientSideConnection(conn: VpnConnection, listenerAlive: bool, async: bool, nested: Nested)
      requires Inv(View()) && conn in live
      modifies this`byClient, this`byServer, this`live, live`state
      ensures View() == CloseClient(old(View()), conn, listenerAlive, async, nested)
    {
      if !listenerAlive {
        DestroyConnection(conn.clientId, conn.serverId);
        return;
      }
      var state, clientId := conn.state, conn.clientId;
      if state != WaitingResponseMigrating && !async {
        if nested.Now? {
          OnClientClosed(clientId, nested.sessionClosed, nested.upstreamAlive);
        }
        if state in {WaitingResolve, WaitingResponse, WaitingAction} && clientId in byClient {
          SetState(byClient[clientId], Rejected);
        }
      }
    }

    /** `SERVER_EVENT_CONNECTION_CLOSED`. */
    method OnServerClosed(id: Id, listenerAlive: bool, nested: Nested)
      requires Inv(View())
      modifies this`byClient, this`byServer, this`live, live`state
      ensures View() == ServerClosed(old(View()), id, listenerAlive, nested)
    {
      if id !in byServer {
        DestroyConnection(NON_ID, id);
        return;
      }
      var conn := byServer[id];
      if conn.clientId in byClient && listenerAlive {
        byServer := byServer - {conn.serverId};
        ForgetKeeps(old(View()), View());
        CloseClientSideConnection(conn, true, false, nested);
      } else {
        DestroyConnection(conn.clientId, conn.serverId);
      }
    }

    /** `SERVER_EVENT_ERROR` on one connection. */
    method OnServerError(id: Id, listenerAlive: bool, nested: Nested)
      requires Inv(View())
      modifies this`byClient, this`byServer, this`live, live`state
      ensures View() == ServerError(old(View()), id, listenerAlive, nested)
    {
      if id !in byServer {
        DestroyConnection(NON_ID, id);
        return;
      }
      var conn := byServer[id];
      if conn.state != WaitingResponseMigrating {
        if conn.clientId in byClient {
          byServer := byServer - {conn.serverId};
          ForgetKeeps(old(View()), View());
          CloseClientSideConnection(conn, listenerAlive, false, nested);
        } else {
          DestroyConnection(conn.clientId, conn.serverId);
        }
      }
    }

    /** The switch at the end of a migration. */
    method SwapIds(conn: VpnConnection, src: VpnConnection)
      requires conn in live && src in live && conn != src
      modifies conn, src, this`byClient, this`byServer
      ensures View() == Swap(old(View()), conn, src)
    {
      conn.clientId, src.clientId := src.clientId, conn.clientId;
      conn.state := Connected;
      conn.migratingClientId := NON_ID;
      AddConnection(conn);
    }

    /** `SERVER_EVENT_CONNECTION_OPENED`. */
    method OnServerOpened(id: Id, closesNow: bool)
      requires Inv(View())
      modifies this`byClient, this`byServer, this`live, live
      ensures View() == ServerOpened(old(View()), id, closesNow)
    {
      if id !in byServer {
        return;
      }
      var conn := byServer[id];
      if conn.state == WaitingResponse {
        SetState(conn, WaitingAccept);
      } else if conn.state == WaitingResponseMigrating {
        if conn.migratingClientId !in byClient {
          return;
        }
        var src := byClient[conn.migratingClientId];
        SwapKeeps(View(), conn, src);
        SwapIds(conn, src);
        if closesNow {
          OnServerClosed(src.serverId, true, Later);
        }
      }
    }

    /** `CLIENT_EVENT_CONNECT_REQUEST`. */
    method OnConnectRequest(id: Id) returns (conn: VpnConnection)
      requires Inv(View()) && id != NON_ID && id !in usedClient
      modifies this
      ensures fresh(conn) && View() == ConnectRequest(old(View()), conn, id)
    {
      conn := new VpnConnection(id, NON_ID, WaitingAction, NON_ID);
      live := live + {conn};
      assert View() == Update(old(View()), conn, Conn(id, NON_ID, WaitingAction, NON_ID));
      AddConnection(conn);
      usedClient := usedClient + {id};
    }

    method BindServer(conn: VpnConnection, serverId: Id)
      requires conn in live
      modifies conn, this`byClient, this`byServer, this`usedServer
      ensures View() == Bind(old(View()), conn, serverId)
    {
      conn.serverId := serverId;
      conn.state := WaitingResponse;
      assert View() == Update(old(View()), conn, old(conn.View()).(serverId := serverId, state := WaitingResponse));
      AddConnection(conn);
      usedServer := usedServer + {serverId};
    }

    /** `complete_connect_request`. */
    method CompleteConnectRequest(id: Id, outcome: Outcome, listenerAlive: bool)
      requires Inv(View()) && Enabled(View(), OnComplete(id, outcome, listenerAlive))
      modifies this, live
      ensures View() == Complete(old(View()), id, outcome, listenerAlive)
    {
      if id !in byClient {
        return;
      }
      var conn := byClient[id];
      match outcome
      case Resolving => SetState(conn, WaitingResolve);
      case Opened(serverId) => BindServer(conn, serverId);
      case Refused => CloseClientSideConnection(conn, listenerAlive, true, Later);
    }

    /** `on_destination_resolve_result`. */
    method OnResolved(id: Id, serverId: Id, listenerAlive: bool, nested: Nested)
      requires Inv(View()) && (serverId != NON_ID ==> serverId !in usedServer)
      modifies this, live
      ensures View() == Resolved(old(View()), id, serverId, listenerAlive, nested)
    {
      if id !in byClient {
        return;
      }
      var conn := byClient[id];
      if conn.state != WaitingResolve || serverId == NON_ID {
        CloseClientSideConnection(conn, listenerAlive, false, nested);
      } else {
        BindServer(conn, serverId);
      }
    }

    method Register(twin: VpnConnection)
      requires twin !in live
      modifies this
      ensures View() == Add(Update(old(View()), twin, twin.View()), twin).(usedServer := old(usedServer) + {twin.serverId})
      ensures live == old(live) + {twin}
    {
      live := live + {twin};
      AddConnection(twin);
      usedServer := usedServer + {twin.serverId};
    }

    /** `initiate_connection_migration` and its caller. */
    method InitiateMigration(id: Id, serverId: Id, listenerAlive: bool, udp: bool) returns (twin: VpnConnection)
      requires Inv(View()) && (serverId != NON_ID ==> serverId !in usedServer)
      modifies this, live
      ensures fresh(twin) && View() == Migrate(old(View()), id, twin, serverId, listenerAlive, udp)
    {
      twin := new VpnConnection(NON_ID, serverId, WaitingResponseMigrating, id);
      if id !in byClient {
        return;
      }
      var conn := byClient[id];
      if serverId == NON_ID {
        CloseClientSideConnection(conn, listenerAlive, true, Later);
        return;
      }
      TwinKeeps(View(), twin, id, serverId);
      Register(twin);
      if !udp && !listenerAlive {
        CloseClientSideConnection(conn, false, true, Later);
      } else {
        SetState(conn, ConnectedMigrating);
      }
    }

    /** `deinit`: both tables are emptied, and every connection that could be found is deleted. */
    method Deinit()
      requires Inv(View())
      modifies this`byClient, this`byServer, this`live
      ensures Inv(View()) && byClient == map[] && byServer == map[]
      ensures NoLeak(old(View())) ==> live == {}
    {
      while byClient.Keys != {}
        modifies this`byClient, this`byServer, this`live
        invariant Inv(View()) && live <= old(live) && (NoLeak(old(View())) ==> NoLeak(View()))
        decreases live
      {
        SomeId(byClient.Keys);
        var id :| id in byClient.Keys;
        DestroyOne(byClient[id]);
      }
      while byServer.Keys != {}
        modifies this`byClient, this`byServer, this`live
        invariant Inv(View()) && byClient.Keys == {} && live <= old(live) && (NoLeak(old(View())) ==> NoLeak(View()))
        decreases live
      {
        SomeId(byServer.Keys);
        var id :| id in byServer.Keys;
        DestroyOne(byServer[id]);
      }
      assert forall c | c in live :: c in View().live && !Found(View(), c);
    }

    method DestroyOne(conn: VpnConnection)
      requires Inv(View()) && conn in live && Found(View(), conn)
      modifies this`byClient, this`byServer, this`live
      ensures Inv(View()) && live == old(live) - {conn} && (NoLeak(old(View())) ==> NoLeak(View()))
      ensures old(byClient).Keys == {} ==> byClient.Keys == {}
    {
      assert old(View()).live.Keys == old(live);
      FindIsOwner(View(), conn);
      if NoLeak(View()) {
        DestroyNoLeak(View(), conn.clientId, conn.serverId);
      }
      DestroyConnection(conn.clientId, conn.serverId);
      assert View().live.Keys == live;
    }
  }
}
