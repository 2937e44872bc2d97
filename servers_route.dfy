// The HTTP handlers of app/api/servers/route.ts over the store: GET copies
// every server into a plain record, POST picks an id, PUT forwards a patch,
// DELETE checks its query parameter. The JSON body is an already-parsed
// record; `None` stands for a body that does not parse.
module ServersRoute {
  import opened Js
  import opened Models
  import opened Database
  import opened ServerStore

  datatype ServerBody = ServerBody(
    id: Option<string>,
    name: Option<string>,
    host: Option<string>,
    description: Option<string>)

  datatype Payload =
    | Failure(error: string)
    | Success                                   // `{ success: true }`
    | ServerList(servers: seq<ServerDefinition>)
    | OneServer(server: Server)

  datatype Response = Response(status: int, payload: Payload)

  /** The plain object GET builds for one server: the same four fields,
      and each service copied field by field. */
  function PlainServer(s: Server): (d: ServerDefinition)
    ensures d.id == s.id && d.name == s.name && d.host == s.host && d.description == s.description
    ensures |d.services| == |s.services|
    ensures forall i :: 0 <= i < |d.services| ==> d.services[i] == s.services[i]
  {
    ServerDefinition(s.id, s.name, s.host, s.description, s.services)
  }

  /** The copy loses nothing: constructing a `Server` from it gives back the
      server it was copied from. */
  lemma PlainServerRoundTrip(s: Server)
    ensures NewServer(PlainServer(s)) == s
  {
    var t := NewServer(PlainServer(s));
    assert t.services == s.services by {
      forall i | 0 <= i < |s.services| ensures t.services[i] == s.services[i] {
        assert PlainServer(s).services[i].protocol.Some?;
      }
    }
  }

  function PlainServers(servers: seq<Server>): (r: seq<ServerDefinition>)
    ensures |r| == |servers|
    ensures forall i :: 0 <= i < |r| ==> r[i] == PlainServer(servers[i])
  {
    seq(|servers|, i requires 0 <= i < |servers| => PlainServer(servers[i]))
  }

  /** The id POST gives a new server: the body's id when it is truthy, else
      `server-` and the clock reading in milliseconds. */
  function NewServerId(body: ServerBody, now: nat): (id: string)
    ensures Truthy(body.id) ==> id == body.id.value
    ensures !Truthy(body.id) ==> "server-" <= id && id[|"server-"|..] == NatToString(now)
    ensures id != ""
  {
    if Truthy(body.id) then body.id.value else "server-" + NatToString(now)
  }

  /** A generated id reads back as the clock reading it was made from. */
  lemma GeneratedIdHasTimestamp(body: ServerBody, now: nat)
    requires !Truthy(body.id)
    ensures ParseInt(NewServerId(body, now)[7..]) == Some(now)
  {
    ParseIntOfIntToString(now);
  }

  /** `GET /api/servers`. */
  method Get(store: Store) returns (r: Response)
    requires store.Valid()
    modifies store
    ensures store.Valid() && store.servers == old(store.servers) && store.services == old(store.services)
    ensures r == Response(200, ServerList(PlainServers(ServerStore.ServerList(store.servers, store.services))))
  {
    var servers := GetAllServers(store);
    r := Response(200, ServerList(PlainServers(servers)));
  }

  /** `POST /api/servers`; `now` is `Date.now()`. The insert fails on a
      NOT NULL column when the body has no name or host, and on the primary
      key when the id is taken. */
  method Post(store: Store, body: Option<ServerBody>, now: nat) returns (r: Response)
    requires store.Valid()
    modifies store
    ensures store.Valid() && store.services == old(store.services)
    ensures r.status == 201 <==>
      body.Some? && body.value.name.Some? && body.value.host.Some?
      && NewServerId(body.value, now) !in ServerIds(old(store.servers))
    ensures r.status != 201 ==> r == Response(500, Failure("Failed to create server")) && store.servers == old(store.servers)
    ensures r.status == 201 ==>
      var b := body.value;
      var id := NewServerId(b, now);
      && store.servers == old(store.servers) + [ServerRow(id, b.name.value, b.host.value, NonEmpty(b.description))]
      && r.payload == OneServer(Server(id, b.name.value, b.host.value, NonEmpty(b.description), []))
  {
    if body.None? || body.value.name.None? || body.value.host.None? {
      return Response(500, Failure("Failed to create server"));
    }
    var b := body.value;
    var server := CreateServer(store, NewServerId(b, now), b.name.value, b.host.value, b.description);
    r := if server.Some? then Response(201, OneServer(server.value)) else Response(500, Failure("Failed to create server"));
  }

  /** `PUT /api/servers`: the updated server. `updateServer` hands back
      `undefined` when no row has the id, and `NextResponse.json(undefined)`
      throws (`JSON.stringify` gives no text), so the catch answers 500. A
      body without an id updates nothing (`WHERE id = NULL`) and ends the
      same way. */
  method Put(store: Store, body: Option<ServerBody>) returns (r: Response)
    requires store.Valid()
    modifies store
    ensures store.Valid() && store.services == old(store.services)
    ensures (body.None? || body.value.id.None?) ==>
      r == Response(500, Failure("Failed to update server")) && store.servers == old(store.servers)
    ensures body.Some? && body.value.id.Some? ==>
      var id := body.value.id.value;
      && store.servers == UpdatedServerRows(old(store.servers), id, ServerPatch(body.value.name, body.value.host, body.value.description))
      && (id in ServerIds(old(store.servers)) ==>
            r == Response(200, OneServer(LookupServer(store.servers, store.services, id).value)))
      && (id !in ServerIds(old(store.servers)) ==>
            r == Response(500, Failure("Failed to update server")) && store.servers == old(store.servers))
  {
    if body.None? {
      return Response(500, Failure("Failed to update server"));
    }
    var b := body.value;
    if b.id.None? {
      var _ := store.GetDatabase();
      return Response(500, Failure("Failed to update server"));
    }
    var p := ServerPatch(b.name, b.host, b.description);
    UpdatedServerIds(store.servers, b.id.value, p);
    var server := UpdateServer(store, b.id.value, p);
    r := match server
      case None => Response(500, Failure("Failed to update server"))
      case Some(s) => Response(200, OneServer(s));
  }

  /** `DELETE /api/servers?id=…`. */
  method Delete(store: Store, id: Option<string>) returns (r: Response)
    requires store.Valid()
    modifies store
    ensures store.Valid()
    ensures !Truthy(id) ==> (r == Response(400, Failure("Server ID is required"))
      && store.servers == old(store.servers) && store.services == old(store.services))
    ensures Truthy(id) ==> (r == Response(200, Success)
      && store.servers == WithoutServer(old(store.servers), id.value)
      && store.services == WithoutServicesOf(old(store.services), id.value))
  {
    if !Truthy(id) {
      return Response(400, Failure("Server ID is required"));
    }
    DeleteServer(store, id.value);
    r := Response(200, Success);
  }
}
