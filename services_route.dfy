// The HTTP handlers of app/api/services/route.ts over the store: a query
// parameter check (400), the defaults POST fills in, the patch PUT forwards,
// and the 500 reply every handler gives when the store throws. The JSON body
// is an already-parsed record; `None` stands for a body that does not parse.
module ServicesRoute {
  import opened Js
  import opened Models
  import opened Database
  import opened Sql
  import opened ServiceStore

  /** The fields a client may send in a POST or PUT body. */
  datatype ServiceBody = ServiceBody(
    id: Option<string>,
    serverId: Option<string>,
    name: Option<string>,
    description: Option<string>,
    ports: Option<seq<nat>>,
    icon: Option<string>,
    image: Option<string>,
    color: Option<string>,
    protocol: Option<Protocol>,
    tags: Option<seq<string>>,
    healthcheckEnabled: Option<bool>,
    healthcheckUrl: Option<string>,
    healthcheckExpectedStatus: Option<int>,
    publicUrl: Option<string>)

  /** The JSON a handler answers with. */
  datatype Payload =
    | Failure(error: string)
    | Success                                 // `{ success: true }`
    | Services(services: seq<ServiceWithId>)

  datatype Response = Response(status: int, payload: Payload)

  /** The service definition POST hands to `createService`: the body's
      fields, with ports and tags defaulting to empty lists and the protocol
      to http. `None` where the insert must fail on a NOT NULL column: no
      server id or no name. */
  function CreateArguments(b: ServiceBody): (r: Option<(string, ServiceDefinition)>)
    ensures r.Some? <==> b.serverId.Some? && b.name.Some?
    ensures r.Some? ==> r.value.0 == b.serverId.value && r.value.1 == ServiceDefinition(
      b.name.value, b.description, b.ports.GetOr([]), b.image, b.icon, b.color,
      Some(b.tags.GetOr([])), Some(b.protocol.GetOr(Http)), b.healthcheckEnabled,
      b.healthcheckUrl, b.healthcheckExpectedStatus, b.publicUrl)
  {
    if b.serverId.None? || b.name.None? then None
    else
      Some((b.serverId.value, ServiceDefinition(
        b.name.value, b.description, b.ports.GetOr([]), b.image, b.icon, b.color,
        Some(b.tags.GetOr([])), Some(b.protocol.GetOr(Http)), b.healthcheckEnabled,
        b.healthcheckUrl, b.healthcheckExpectedStatus, b.publicUrl)))
  }

  /** A service created through POST reads back with the body's name and,
      where the body left them out, no ports, no tags and the http
      protocol. */
  lemma PostDefaultsReadBack(b: ServiceBody, id: string)
    requires b.serverId.Some? && b.name.Some?
    ensures var d := ReadService(NewServiceRow(id, b.serverId.value, CreateArguments(b).value.1));
      && d.name == b.name.value
      && d.ports == b.ports.GetOr([])
      && d.tags == Some(b.tags.GetOr([]))
      && d.protocol == Some(b.protocol.GetOr(Http))
      && (b.ports.None? ==> d.ports == [])
      && (b.tags.None? ==> d.tags == Some([]))
      && (b.protocol.None? ==> d.protocol == Some(Http))
  {
    var d := CreateArguments(b).value.1;
    ReadBackCreated(id, b.serverId.value, d);
  }

  /** The patch PUT hands to `updateService`: every field exactly as sent,
      so an absent field stays undefined and its column untouched. */
  function UpdateArguments(b: ServiceBody): (p: ServicePatch)
    ensures p == EmptyPatch <==>
      b.name.None? && b.description.None? && b.ports.None? && b.icon.None? && b.image.None?
      && b.color.None? && b.protocol.None? && b.tags.None? && b.healthcheckEnabled.None?
      && b.healthcheckUrl.None? && b.healthcheckExpectedStatus.None? && b.publicUrl.None?
  {
    ServicePatch(b.name, b.description, b.ports, b.icon, b.image, b.color, b.protocol,
      b.tags, b.healthcheckEnabled, b.healthcheckUrl, b.healthcheckExpectedStatus, b.publicUrl)
  }

  /** Running the statement a PUT body builds on a row: a field left out
      of the body keeps the row's value of that column; a field sent
      replaces it. */
  lemma PutLeavesAbsentFields(row: ServiceRow, b: ServiceBody)
    ensures var r := ApplyAssignments(row, SetServiceColumn, ServiceAssignments(UpdateArguments(b)));
      && r.id == row.id && r.serverId == row.serverId
      && (b.name.None? ==> r.name == row.name)
      && (b.name.Some? ==> r.name == b.name.value)
      && (b.ports.None? ==> r.ports == row.ports)
      && (b.ports.Some? ==> r.ports == b.ports.value)
      && (b.description.None? ==> r.description == row.description)
      && (b.description.Some? ==> r.description == NonEmpty(b.description))
      && (b.icon.None? ==> r.icon == row.icon)
      && (b.image.None? ==> r.image == row.image)
      && (b.color.None? ==> r.color == row.color)
      && (b.protocol.None? ==> r.protocol == row.protocol)
      && (b.tags.None? ==> r.tags == row.tags)
      && (b.healthcheckEnabled.None? ==> r.healthcheckEnabled == row.healthcheckEnabled)
      && (b.healthcheckUrl.None? ==> r.healthcheckUrl == row.healthcheckUrl)
      && (b.healthcheckExpectedStatus.None? ==> r.healthcheckExpectedStatus == row.healthcheckExpectedStatus)
      && (b.publicUrl.None? ==> r.publicUrl == row.publicUrl)
  {
    UpdateMeansPatch(row, UpdateArguments(b));
  }

  /** `GET /api/services?serverId=…`. */
  method Get(store: Store, serverId: Option<string>) returns (r: Response)
    requires store.Valid()
    modifies store
    ensures store.Valid() && store.servers == old(store.servers) && store.services == old(store.services)
    ensures !Truthy(serverId) ==> r == Response(400, Failure("Server ID is required"))
    ensures Truthy(serverId) ==> r == Response(200, Services(ServicesOf(store.services, serverId.value)))
  {
    if !Truthy(serverId) {
      return Response(400, Failure("Server ID is required"));
    }
    var services := GetServicesByServerId(store, serverId.value);
    r := Response(200, Services(services));
  }

  /** `POST /api/services`; `suffix` is the `${Date.now()}-${random}` part
      of the new id. */
  method Post(store: Store, body: Option<ServiceBody>, suffix: string) returns (r: Response)
    requires store.Valid()
    modifies store
    ensures store.Valid() && store.servers == old(store.servers)
    ensures r == Response(201, Success) || r == Response(500, Failure("Failed to create service"))
    ensures r.status == 201 <==>
      && body.Some? && CreateArguments(body.value).Some?
      && ServiceColumns <= store.serviceColumns
      && (forall i :: 0 <= i < |old(store.services)| ==>
            old(store.services)[i].id != ServiceId(CreateArguments(body.value).value.0, suffix))
      && CreateArguments(body.value).value.0 in ServerIds(store.servers)
    ensures store.services ==
      if r.status == 201 then
        var (serverId, d) := CreateArguments(body.value).value;
        old(store.services) + [NewServiceRow(ServiceId(serverId, suffix), serverId, d)]
      else old(store.services)
  {
    if body.None? || CreateArguments(body.value).None? {
      return Response(500, Failure("Failed to create service"));
    }
    var (serverId, d) := CreateArguments(body.value).value;
    var ok := CreateService(store, serverId, suffix, d);
    r := if ok then Response(201, Success) else Response(500, Failure("Failed to create service"));
  }

  /** `PUT /api/services`. A body without an id matches no row (`WHERE id =
      NULL`), yet the statement still fails on a missing column. */
  method Put(store: Store, body: Option<ServiceBody>) returns (r: Response)
    requires store.Valid()
    modifies store
    ensures store.Valid() && store.servers == old(store.servers)
    ensures r == Response(200, Success) || r == Response(500, Failure("Failed to update service"))
    ensures r.status == 200 <==>
      body.Some? && forall c :: IsDefined(UpdateArguments(body.value), c) ==> ColumnName(c) in store.serviceColumns
    ensures store.services ==
      if r.status == 200 && body.value.id.Some? then UpdatedRows(old(store.services), body.value.id.value, UpdateArguments(body.value))
      else old(store.services)
  {
    if body.None? {
      return Response(500, Failure("Failed to update service"));
    }
    var p := UpdateArguments(body.value);
    var ok;
    if body.value.id.Some? {
      ok := UpdateService(store, body.value.id.value, p);
    } else {
      var _ := store.GetDatabase();
      var updates, values := BuildServiceUpdate("", p);
      SchemaAcceptsUpdate(p, store.serviceColumns);
      ok := |updates| == 0 || forall i | 0 <= i < |updates| :: ColumnOf(updates[i]) in store.serviceColumns;
    }
    r := if ok then Response(200, Success) else Response(500, Failure("Failed to update service"));
  }

  /** `DELETE /api/services?id=…`. */
  method Delete(store: Store, id: Option<string>) returns (r: Response)
    requires store.Valid()
    modifies store
    ensures store.Valid() && store.servers == old(store.servers)
    ensures !Truthy(id) ==> r == Response(400, Failure("Service ID is required")) && store.services == old(store.services)
    ensures Truthy(id) ==> r == Response(200, Success) && store.services == WithoutService(old(store.services), id.value)
  {
    if !Truthy(id) {
      return Response(400, Failure("Service ID is required"));
    }
    DeleteService(store, id.value);
    r := Response(200, Success);
  }
}
