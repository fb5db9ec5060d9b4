/**
 * The bookkeeping of `setup`'s "connection" handler: every accepted
 * connection pushes its client socket, server socket, server and broker
 * client onto four parallel arrays, and the handler resolves the fixture
 * when the number of servers equals the node count.
 *
 * The asynchronous bootstrap of the nodes is abstracted as an arbitrary
 * sequence of connection events, in whatever order they arrive.
 */
module Quorum {
  import CallGate

  datatype Option<T> = None | Some(value: T)

  /** One accepted connection: the handles the handler pushes, one per array. */
  datatype Connection<C, S, V, R> = Connection(client: C, socket: S, server: V, redis: R)

  /** The four parallel arrays of `setup`. */
  datatype Context<C, S, V, R> = Context(
    clientSockets: seq<C>,
    serverSockets: seq<S>,
    servers: seq<V>,
    redisClients: seq<R>)

  /**
   * The arrays hold exactly one element per event, and the elements at
   * index j all come from the j-th event.
   */
  ghost predicate Aligned<C, S, V, R>(ctx: Context<C, S, V, R>, events: seq<Connection<C, S, V, R>>)
  {
    && |ctx.clientSockets| == |events|
    && |ctx.serverSockets| == |events|
    && |ctx.servers| == |events|
    && |ctx.redisClients| == |events|
    && forall j :: 0 <= j < |events| ==>
         && ctx.clientSockets[j] == events[j].client
         && ctx.serverSockets[j] == events[j].socket
         && ctx.servers[j] == events[j].server
         && ctx.redisClients[j] == events[j].redis
  }

  /** The four pushes of one handler invocation. */
  function Push<C, S, V, R>(ctx: Context<C, S, V, R>, e: Connection<C, S, V, R>): Context<C, S, V, R>
  {
    Context(ctx.clientSockets + [e.client], ctx.serverSockets + [e.socket],
            ctx.servers + [e.server], ctx.redisClients + [e.redis])
  }

  /** The arrays after the handler has run once for each event, starting from empty arrays. */
  function Accumulate<C, S, V, R>(events: seq<Connection<C, S, V, R>>): (ctx: Context<C, S, V, R>)
    ensures Aligned(ctx, events)
  {
    if events == [] then Context([], [], [], [])
    else
      var prefix := events[..|events| - 1];
      assert forall j :: 0 <= j < |prefix| ==> prefix[j] == events[j];
      Push(Accumulate(prefix), events[|events| - 1])
  }

  /** The arrays of one `setup` call, updated in place by the "connection" handler. */
  class Cluster<C, S, V, R> {
    /** NODES_COUNT. */
    const nodesCount: int
    var clientSockets: seq<C>
    var serverSockets: seq<S>
    var servers: seq<V>
    var redisClients: seq<R>
    /** The connection events handled so far, in arrival order. */
    ghost var Events: seq<Connection<C, S, V, R>>

    function Snapshot(): Context<C, S, V, R>
      reads this
    {
      Context(clientSockets, serverSockets, servers, redisClients)
    }

    ghost predicate Valid()
      reads this
    {
      Snapshot() == Accumulate(Events)
    }

    /** The four empty arrays declared at the top of `setup`. */
    constructor (nodesCount: int)
      ensures Valid()
      ensures this.nodesCount == nodesCount && Events == []
      ensures clientSockets == [] && serverSockets == [] && servers == [] && redisClients == []
    {
      this.nodesCount := nodesCount;
      clientSockets, serverSockets, servers, redisClients := [], [], [], [];
      Events := [];
    }

    /**
     * The "connection" handler: push one element onto each array, then
     * report whether the length check that leads to resolution succeeds.
     */
    method OnConnection(e: Connection<C, S, V, R>) returns (resolve: bool)
      requires Valid()
      modifies this
      ensures Valid()
      ensures Events == old(Events) + [e]
      ensures clientSockets == old(clientSockets) + [e.client]
      ensures serverSockets == old(serverSockets) + [e.socket]
      ensures servers == old(servers) + [e.server]
      ensures redisClients == old(redisClients) + [e.redis]
      ensures resolve <==> |Events| == nodesCount
    {
      clientSockets := clientSockets + [e.client];
      serverSockets := serverSockets + [e.socket];
      servers := servers + [e.server];
      redisClients := redisClients + [e.redis];
      Events := Events + [e];
      assert Events[..|Events| - 1] == old(Events);
      resolve := |servers| == nodesCount;
    }
  }

  /**
   * `setup` with `nodesCount` nodes, fed the accepted connections in the
   * order they arrive. Returns the context the fixture resolves with, if
   * any, and how many times the resolve branch was taken.
   */
  method Setup<C, S, V, R>(nodesCount: int, events: seq<Connection<C, S, V, R>>)
    returns (resolved: Option<Context<C, S, V, R>>, resolutions: nat)
    ensures resolutions == if 1 <= nodesCount <= |events| then 1 else 0
    ensures resolutions == CallGate.FireCount(CallGate.Trace(nodesCount, |events|))
    ensures resolved.Some? <==> 1 <= nodesCount <= |events|
    ensures resolved.Some? ==> Aligned(resolved.value, events[..nodesCount])
  {
    var cluster := new Cluster(nodesCount);
    resolved, resolutions := None, 0;
    var k := 0;
    while k < |events|
      invariant 0 <= k <= |events|
      invariant cluster.Valid() && cluster.nodesCount == nodesCount
      invariant cluster.Events == events[..k]
      invariant resolutions == if 1 <= nodesCount <= k then 1 else 0
      invariant resolved.Some? <==> 1 <= nodesCount <= k
      invariant resolved.Some? ==> Aligned(resolved.value, events[..nodesCount])
    {
      var resolve := cluster.OnConnection(events[k]);
      assert events[..k + 1] == events[..k] + [events[k]];
      if resolve {
        resolved, resolutions := Some(cluster.Snapshot()), resolutions + 1;
      }
      k := k + 1;
    }
    assert events[..k] == events;
    CallGate.FiresOnce(nodesCount, |events|);
  }

  /** One release step of the `cleanup` closure. */
  datatype Release<C, V, R> = CloseListener(server: V) | CloseAdapter(server: V) | Disconnect(client: C) | Quit(redis: R)

  /** Close each server's listener and then its adapter, server by server. */
  function CloseServers<C, V, R>(servers: seq<V>): (plan: seq<Release<C, V, R>>)
    ensures |plan| == 2 * |servers|
  {
    if servers == [] then []
    else [CloseListener(servers[0]), CloseAdapter(servers[0])] + CloseServers(servers[1..])
  }

  function DisconnectClients<C, V, R>(clients: seq<C>): (plan: seq<Release<C, V, R>>)
    ensures |plan| == |clients|
  {
    if clients == [] then [] else [Disconnect(clients[0])] + DisconnectClients(clients[1..])
  }

  function QuitBrokers<C, V, R>(redisClients: seq<R>): (plan: seq<Release<C, V, R>>)
    ensures |plan| == |redisClients|
  {
    if redisClients == [] then [] else [Quit(redisClients[0])] + QuitBrokers(redisClients[1..])
  }

  /** The releases `cleanup` performs, in order: batched by resource type across all nodes. */
  function Cleanup<C, S, V, R>(ctx: Context<C, S, V, R>): seq<Release<C, V, R>>
  {
    CloseServers(ctx.servers) + DisconnectClients(ctx.clientSockets) + QuitBrokers(ctx.redisClients)
  }

  lemma {:induction false} CloseServersAt<C, V, R>(servers: seq<V>, j: nat)
    requires j < |servers|
    ensures CloseServers<C, V, R>(servers)[2 * j] == CloseListener(servers[j])
    ensures CloseServers<C, V, R>(servers)[2 * j + 1] == CloseAdapter(servers[j])
  {
    if j > 0 {
      CloseServersAt<C, V, R>(servers[1..], j - 1);
    }
  }

  lemma {:induction false} DisconnectClientsAt<C, V, R>(clients: seq<C>, j: nat)
    requires j < |clients|
    ensures DisconnectClients<C, V, R>(clients)[j] == Disconnect(clients[j])
  {
    if j > 0 {
      DisconnectClientsAt<C, V, R>(clients[1..], j - 1);
    }
  }

  lemma {:induction false} QuitBrokersAt<C, V, R>(redisClients: seq<R>, j: nat)
    requires j < |redisClients|
    ensures QuitBrokers<C, V, R>(redisClients)[j] == Quit(redisClients[j])
  {
    if j > 0 {
      QuitBrokersAt<C, V, R>(redisClients[1..], j - 1);
    }
  }

  /**
   * For the arrays of `n` connections, `cleanup` makes 4 * n releases: the
   * listener and adapter of every server, then every client socket, then
   * every broker client, each in arrival order.
   */
  lemma CleanupReleasesEach<C, S, V, R>(events: seq<Connection<C, S, V, R>>, j: nat)
    requires j < |events|
    ensures var plan := Cleanup(Accumulate(events)); var n := |events|;
      && |plan| == 4 * n
      && plan[2 * j] == CloseListener(events[j].server)
      && plan[2 * j + 1] == CloseAdapter(events[j].server)
      && plan[2 * n + j] == Disconnect(events[j].client)
      && plan[3 * n + j] == Quit(events[j].redis)
  {
    var ctx := Accumulate(events);
    CloseServersAt<C, V, R>(ctx.servers, j);
    DisconnectClientsAt<C, V, R>(ctx.clientSockets, j);
    QuitBrokersAt<C, V, R>(ctx.redisClients, j);
  }
}
