// lib/db/servers.ts: servers read together with their services, created,
// partially updated and deleted. The servers table keeps its rows in rowid
// order; `ORDER BY name` is SQLite's BINARY collation, which on UTF-8 text
// orders by code point, so here by `char` value.
module ServerStore {
  import opened Js
  import opened Models
  import opened Database
  import opened Sql
  import opened ServiceStore

  /** Code-point lexicographic order on names: a prefix comes first. */
  predicate NameLeq(a: string, b: string) {
    a == [] || (b != [] && (a[0] < b[0] || (a[0] == b[0] && NameLeq(a[1..], b[1..]))))
  }

  lemma {:induction false} NameLeqTotal(a: string, b: string)
    ensures NameLeq(a, b) || NameLeq(b, a)
  {
    if a != [] && b != [] && a[0] == b[0] {
      NameLeqTotal(a[1..], b[1..]);
    }
  }

  lemma {:induction false} NameLeqTransitive(a: string, b: string, c: string)
    requires NameLeq(a, b) && NameLeq(b, c)
    ensures NameLeq(a, c)
  {
    if a != [] && b != [] && c != [] && a[0] == b[0] && b[0] == c[0] {
      NameLeqTransitive(a[1..], b[1..], c[1..]);
    }
  }

  predicate SortedByName(rows: seq<ServerRow>) {
    forall i, j :: 0 <= i < j < |rows| ==> NameLeq(rows[i].name, rows[j].name)
  }

  /** A row that sorts before every row of a sorted table can head it. */
  lemma ConsSorted(h: ServerRow, rest: seq<ServerRow>)
    requires SortedByName(rest)
    requires forall y :: y in rest ==> NameLeq(h.name, y.name)
    ensures SortedByName([h] + rest)
  {
    var r := [h] + rest;
    forall i, j | 0 <= i < j < |r| ensures NameLeq(r[i].name, r[j].name) {
      assert r[j] == rest[j - 1];
      if i > 0 {
        assert r[i] == rest[i - 1];
      }
    }
  }

  lemma BelowHead(x: ServerRow, s: seq<ServerRow>)
    requires SortedByName(s) && s != [] && NameLeq(x.name, s[0].name)
    ensures forall y :: y in s ==> NameLeq(x.name, y.name)
  {
    forall y | y in s ensures NameLeq(x.name, y.name) {
      var j :| 0 <= j < |s| && s[j] == y;
      if j > 0 {
        NameLeqTransitive(x.name, s[0].name, s[j].name);
      }
    }
  }

  lemma HeadBelowRest(x: ServerRow, s: seq<ServerRow>, rest: seq<ServerRow>)
    requires SortedByName(s) && s != [] && !NameLeq(x.name, s[0].name)
    requires multiset(rest) == multiset(s[1..]) + multiset{x}
    ensures forall y :: y in rest ==> NameLeq(s[0].name, y.name)
  {
    forall y | y in rest ensures NameLeq(s[0].name, y.name) {
      assert y in multiset(rest);
      if y == x {
        NameLeqTotal(x.name, s[0].name);
      } else {
        assert y in multiset(s[1..]);
        var k :| 0 <= k < |s[1..]| && s[1..][k] == y;
        assert s[k + 1] == y;
      }
    }
  }

  /** Put one row into a name-sorted table. */
  function InsertByName(x: ServerRow, s: seq<ServerRow>): (r: seq<ServerRow>)
    requires SortedByName(s)
    ensures SortedByName(r)
    ensures multiset(r) == multiset(s) + multiset{x}
  {
    if s == [] then [x]
    else if NameLeq(x.name, s[0].name) then
      BelowHead(x, s);
      ConsSorted(x, s);
      [x] + s
    else
      assert SortedByName(s[1..]);
      var rest := InsertByName(x, s[1..]);
      assert s == [s[0]] + s[1..];
      HeadBelowRest(x, s, rest);
      ConsSorted(s[0], rest);
      [s[0]] + rest
  }

  /** `SELECT * FROM servers ORDER BY name`: the same rows, sorted by name
      (rows with equal names come in an order SQLite leaves open). */
  function OrderByName(rows: seq<ServerRow>): (r: seq<ServerRow>)
    ensures SortedByName(r)
    ensures multiset(r) == multiset(rows)
    ensures |r| == |rows|
  {
    if rows == [] then []
    else
      assert rows == [rows[0]] + rows[1..];
      InsertByName(rows[0], OrderByName(rows[1..]))
  }

  /** Ordering takes every row from the table. */
  lemma OrderedRowsFromTable(rows: seq<ServerRow>)
    ensures forall i :: 0 <= i < |OrderByName(rows)| ==> OrderByName(rows)[i] in rows
  {
    var ordered := OrderByName(rows);
    forall i | 0 <= i < |ordered| ensures ordered[i] in rows {
      assert ordered[i] in multiset(ordered);
    }
  }

  /** The service records of one server, read as `getAllServers` reads them. */
  function ServiceRecords(serviceRows: seq<ServiceRow>, serverId: string): (r: seq<Service>)
    ensures |r| == |RowsOfServer(serviceRows, serverId)|
    ensures forall i :: 0 <= i < |r| ==> r[i] == ReadService(RowsOfServer(serviceRows, serverId)[i])
  {
    var matching := RowsOfServer(serviceRows, serverId);
    seq(|matching|, i requires 0 <= i < |matching| => ReadService(matching[i]))
  }

  /** `getServerById`'s mapping leaves out `publicUrl`. */
  function ReadServiceWithoutPublicUrl(row: ServiceRow): (d: Service)
    ensures d == ReadService(row).(publicUrl := None)
  {
    ReadService(row).(publicUrl := None)
  }

  function ServiceRecordsWithoutPublicUrl(serviceRows: seq<ServiceRow>, serverId: string): (r: seq<Service>)
    ensures |r| == |RowsOfServer(serviceRows, serverId)|
    ensures forall i :: 0 <= i < |r| ==> r[i] == ReadServiceWithoutPublicUrl(RowsOfServer(serviceRows, serverId)[i])
  {
    var matching := RowsOfServer(serviceRows, serverId);
    seq(|matching|, i requires 0 <= i < |matching| => ReadServiceWithoutPublicUrl(matching[i]))
  }

  /** `new Server({...})` from a row and its service records. */
  function ServerOf(row: ServerRow, services: seq<Service>): (s: Server)
    ensures s.id == row.id && s.name == row.name && s.host == row.host
    ensures s.description == NonEmpty(row.description)
    ensures s.services == services
  {
    var d := ServerDefinition(row.id, row.name, row.host, NonEmpty(row.description), services);
    var s := NewServer(d);
    assert s.services == services;
    s
  }

  /** `getAllServers()` on the two tables. */
  function ServerList(serverRows: seq<ServerRow>, serviceRows: seq<ServiceRow>): (r: seq<Server>)
    ensures |r| == |serverRows|
    ensures forall i, j :: 0 <= i < j < |r| ==> NameLeq(r[i].name, r[j].name)
    ensures forall i :: 0 <= i < |r| ==> r[i].services == ServiceRecords(serviceRows, r[i].id)
    ensures forall i :: 0 <= i < |r| ==>
      exists row :: row in serverRows && r[i] == ServerOf(row, ServiceRecords(serviceRows, row.id))
  {
    var ordered := OrderByName(serverRows);
    OrderedRowsFromTable(serverRows);
    seq(|ordered|, i requires 0 <= i < |ordered| =>
      ServerOf(ordered[i], ServiceRecords(serviceRows, ordered[i].id)))
  }

  /** The server row with that id, if any. */
  function FindServer(rows: seq<ServerRow>, id: string): (r: Option<ServerRow>)
    ensures r.None? <==> id !in ServerIds(rows)
    ensures r.Some? ==> r.value in rows && r.value.id == id
  {
    if rows == [] then None
    else if rows[0].id == id then Some(rows[0])
    else
      var r := FindServer(rows[1..], id);
      assert forall i :: 1 <= i < |rows| ==> rows[i] == rows[1..][i - 1];
      assert ServerIds(rows) == {rows[0].id} + ServerIds(rows[1..]) by {
        forall x | x in ServerIds(rows) ensures x in {rows[0].id} + ServerIds(rows[1..]) {
          var i :| 0 <= i < |rows| && rows[i].id == x;
          if i > 0 {
            assert rows[1..][i - 1].id == x;
          }
        }
      }
      r
  }

  /** `getServerById(id)` on the two tables. */
  function LookupServer(serverRows: seq<ServerRow>, serviceRows: seq<ServiceRow>, id: string): (r: Option<Server>)
    ensures r.None? <==> id !in ServerIds(serverRows)
    ensures r.Some? ==> r.value.id == id && r.value.services == ServiceRecordsWithoutPublicUrl(serviceRows, id)
    ensures r.Some? ==>
      exists row :: row in serverRows && row.id == id && r.value == ServerOf(row, ServiceRecordsWithoutPublicUrl(serviceRows, id))
  {
    match FindServer(serverRows, id)
    case None => None
    case Some(row) => Some(ServerOf(row, ServiceRecordsWithoutPublicUrl(serviceRows, id)))
  }

  /** The services as `getServerById` returns them: without `publicUrl`. */
  function DropPublicUrls(services: seq<Service>): (r: seq<Service>)
    ensures |r| == |services|
    ensures forall i :: 0 <= i < |r| ==> r[i].publicUrl.None? && r[i].(publicUrl := services[i].publicUrl) == services[i]
  {
    seq(|services|, i requires 0 <= i < |services| => services[i].(publicUrl := None))
  }

  lemma ServerIdsMembers(rows: seq<ServerRow>)
    ensures forall x :: x in rows ==> x.id in ServerIds(rows)
  {
    forall x | x in rows ensures x.id in ServerIds(rows) {
      var i :| 0 <= i < |rows| && rows[i] == x;
    }
  }

  /** Every listed server is found by its id, with the same fields and
      services, except that the lookup drops each service's `publicUrl`. */
  lemma ListAndLookupAgree(serverRows: seq<ServerRow>, serviceRows: seq<ServiceRow>, i: nat)
    requires ServerKeys(serverRows)
    requires i < |serverRows|
    ensures LookupServer(serverRows, serviceRows, ServerList(serverRows, serviceRows)[i].id) ==
      Some(ServerList(serverRows, serviceRows)[i].(services := DropPublicUrls(ServerList(serverRows, serviceRows)[i].services)))
  {
    var ordered := OrderByName(serverRows);
    var s := ServerList(serverRows, serviceRows)[i];
    var row := ordered[i];
    assert row in multiset(ordered);
    assert row in serverRows;
    ServerIdsMembers(serverRows);
    var found := FindServer(serverRows, row.id);
    var a :| 0 <= a < |serverRows| && serverRows[a] == found.value;
    var b :| 0 <= b < |serverRows| && serverRows[b] == row;
    assert a == b;
    assert DropPublicUrls(ServiceRecords(serviceRows, row.id)) == ServiceRecordsWithoutPublicUrl(serviceRows, row.id);
  }

  /** `getAllServers()` lists every server of the table, once each. */
  lemma ServerListIds(serverRows: seq<ServerRow>, serviceRows: seq<ServiceRow>)
    ensures forall i :: 0 <= i < |ServerList(serverRows, serviceRows)| ==>
      ServerList(serverRows, serviceRows)[i].id in ServerIds(serverRows)
    ensures forall id :: id in ServerIds(serverRows) ==>
      exists i :: 0 <= i < |ServerList(serverRows, serviceRows)| && ServerList(serverRows, serviceRows)[i].id == id
  {
    var ordered := OrderByName(serverRows);
    var r := ServerList(serverRows, serviceRows);
    ServerIdsMembers(serverRows);
    forall i | 0 <= i < |r| ensures r[i].id in ServerIds(serverRows) {
      assert ordered[i] in multiset(ordered);
      assert ordered[i] in serverRows;
    }
    forall id | id in ServerIds(serverRows)
      ensures exists i :: 0 <= i < |r| && r[i].id == id
    {
      var k :| 0 <= k < |serverRows| && serverRows[k].id == id;
      assert serverRows[k] in multiset(serverRows);
      assert serverRows[k] in ordered;
      var i :| 0 <= i < |ordered| && ordered[i] == serverRows[k];
      assert r[i].id == id;
    }
  }

  // ---- updateServer: the partial update ----

  /** The argument of `updateServer`: `None` is `undefined`. */
  datatype ServerPatch = ServerPatch(name: Option<string>, host: Option<string>, description: Option<string>)

  /** The entry each `if (server.x !== undefined)` block pushes, if any. */
  function NameEntry(p: ServerPatch): seq<Assignment> {
    if p.name.Some? then [Assignment("name", Text(p.name.value))] else []
  }

  function HostEntry(p: ServerPatch): seq<Assignment> {
    if p.host.Some? then [Assignment("host", Text(p.host.value))] else []
  }

  function DescriptionEntry(p: ServerPatch): seq<Assignment> {
    if p.description.Some? then [Assignment("description", TextOrNull(p.description.value))] else []
  }

  function ServerAssignments(p: ServerPatch): seq<Assignment> {
    NameEntry(p) + HostEntry(p) + DescriptionEntry(p)
  }

  /** `column = ?` with a value, as the engine executes it on the servers
      table. */
  function SetServerColumn(row: ServerRow, column: string, v: SqlValue): ServerRow {
    if column == "name" && v.Text? then row.(name := v.text)
    else if column == "host" && v.Text? then row.(host := v.text)
    else if column == "description" then row.(description := TextValue(v))
    else row
  }

  /** What a server patch means for a row, field by field. */
  function PatchedServerRow(row: ServerRow, p: ServerPatch): (r: ServerRow)
    ensures r.id == row.id
  {
    ServerRow(row.id, p.name.GetOr(row.name), p.host.GetOr(row.host),
      if p.description.Some? then NonEmpty(p.description) else row.description)
  }

  /** The SET list names each defined field once, in the order name, host,
      description; it is empty exactly for the empty patch. */
  lemma ServerAssignmentsShape(p: ServerPatch)
    ensures ServerAssignments(p) == [] <==> p == ServerPatch(None, None, None)
    ensures |ServerAssignments(p)| <= 3
    ensures forall i :: 0 <= i < |ServerAssignments(p)| ==>
      ServerAssignments(p)[i].column in {"name", "host", "description"} && NoMarks(ServerAssignments(p)[i].column)
    ensures p.name.Some? <==> "name" in ColumnsOf(ServerAssignments(p))
    ensures p.host.Some? <==> "host" in ColumnsOf(ServerAssignments(p))
    ensures p.description.Some? <==> "description" in ColumnsOf(ServerAssignments(p))
  {
    var cols := ColumnsOf(ServerAssignments(p));
    ServerColumnsListed(p);
    ServerColumnNames();
    forall i | 0 <= i < |ServerAssignments(p)|
      ensures ServerAssignments(p)[i].column in {"name", "host", "description"}
    {
      assert cols[i] == ServerAssignments(p)[i].column;
    }
  }

  /** The columns of the SET list, block by block. */
  lemma ServerColumnsListed(p: ServerPatch)
    ensures ColumnsOf(ServerAssignments(p)) ==
      (if p.name.Some? then ["name"] else []) + (if p.host.Some? then ["host"] else [])
      + (if p.description.Some? then ["description"] else [])
  {
    var n, h, d := NameEntry(p), HostEntry(p), DescriptionEntry(p);
    PlaceholdersAppend(n, h);
    PlaceholdersAppend(n + h, d);
    assert ColumnsOf(n) == if p.name.Some? then ["name"] else [];
    assert ColumnsOf(h) == if p.host.Some? then ["host"] else [];
    assert ColumnsOf(d) == if p.description.Some? then ["description"] else [];
  }

  lemma ServerColumnNames()
    ensures "name" != "host" && "name" != "description" && "host" != "description"
    ensures NoMarks("name") && NoMarks("host") && NoMarks("description")
  {
  }

  /** Executing the SET list changes a row exactly as the patch means. */
  lemma ServerUpdateMeansPatch(row: ServerRow, p: ServerPatch)
    ensures ApplyAssignments(row, SetServerColumn, ServerAssignments(p)) == PatchedServerRow(row, p)
  {
    var n, h, d := NameEntry(p), HostEntry(p), DescriptionEntry(p);
    ApplyAssignmentsAppend(row, SetServerColumn, n + h, d);
    ApplyAssignmentsAppend(row, SetServerColumn, n, h);
  }

  /** `updateServer`'s statement builder. */
  method BuildServerUpdate(id: string, p: ServerPatch) returns (updates: seq<string>, values: seq<SqlValue>)
    ensures updates == Placeholders(ServerAssignments(p))
    ensures values == BoundValues(ServerAssignments(p), id)
  {
    updates, values := [], [];
    if p.name.Some? {
      updates := updates + [Placeholder("name")];
      values := values + [Text(p.name.value)];
    }
    assert updates == Placeholders(NameEntry(p)) && values == ValuesOf(NameEntry(p));
    ghost var updates0, values0 := updates, values;
    if p.host.Some? {
      updates := updates + [Placeholder("host")];
      values := values + [Text(p.host.value)];
    }
    assert updates == updates0 + Placeholders(HostEntry(p)) && values == values0 + ValuesOf(HostEntry(p));
    PlaceholdersAppend(NameEntry(p), HostEntry(p));
    ghost var updates1, values1 := updates, values;
    if p.description.Some? {
      updates := updates + [Placeholder("description")];
      values := values + [TextOrNull(p.description.value)];
    }
    assert updates == updates1 + Placeholders(DescriptionEntry(p)) && values == values1 + ValuesOf(DescriptionEntry(p));
    PlaceholdersAppend(NameEntry(p) + HostEntry(p), DescriptionEntry(p));
    if |updates| > 0 {
      values := values + [Text(id)];
    }
  }

  function ServerKey(row: ServerRow): string {
    row.id
  }

  /** The servers table after `UPDATE servers SET ... WHERE id = ?`. */
  function UpdatedServerRows(rows: seq<ServerRow>, id: string, p: ServerPatch): (r: seq<ServerRow>)
    ensures |r| == |rows|
    ensures forall i :: 0 <= i < |r| ==> r[i].id == rows[i].id
  {
    seq(|rows|, i requires 0 <= i < |rows| => if rows[i].id == id then PatchedServerRow(rows[i], p) else rows[i])
  }

  /** An update keeps the set of ids, and an unknown id changes nothing. */
  lemma UpdatedServerIds(rows: seq<ServerRow>, id: string, p: ServerPatch)
    ensures ServerIds(UpdatedServerRows(rows, id, p)) == ServerIds(rows)
    ensures id !in ServerIds(rows) ==> UpdatedServerRows(rows, id, p) == rows
  {
    var r := UpdatedServerRows(rows, id, p);
    assert forall i :: 0 <= i < |rows| ==> r[i].id == rows[i].id;
    if id !in ServerIds(rows) {
      forall i | 0 <= i < |rows| ensures r[i] == rows[i] {
        assert rows[i].id in ServerIds(rows);
      }
    }
  }

  /** Running the built statement patches exactly the row with that id. */
  lemma ExecuteServerUpdate(rows: seq<ServerRow>, id: string, p: ServerPatch)
    requires p != ServerPatch(None, None, None)
    ensures ExecuteUpdate(rows, ServerKey, SetServerColumn,
      Placeholders(ServerAssignments(p)), BoundValues(ServerAssignments(p), id)) == Some(UpdatedServerRows(rows, id, p))
  {
    var a := ServerAssignments(p);
    ServerAssignmentsShape(p);
    ExecuteBuiltUpdate(rows, ServerKey, SetServerColumn, a, id);
    var r := ExecuteUpdate(rows, ServerKey, SetServerColumn, Placeholders(a), BoundValues(a, id));
    forall i | 0 <= i < |rows| ensures r.value[i] == UpdatedServerRows(rows, id, p)[i] {
      ServerUpdateMeansPatch(rows[i], p);
    }
    assert r.value == UpdatedServerRows(rows, id, p);
  }

  /** In the statement `updateServer` runs, placeholders and bound values
      match in number. */
  lemma ServerStatementWellFormed(p: ServerPatch, id: string)
    requires p != ServerPatch(None, None, None)
    ensures CountMarks(UpdateStatement("servers", Placeholders(ServerAssignments(p)))) ==
      |BoundValues(ServerAssignments(p), id)|
  {
    ServerAssignmentsShape(p);
    PlaceholderCount("servers", ServerAssignments(p), id);
  }

  // ---- the table after a delete ----

  /** The servers left by `DELETE FROM servers WHERE id = ?`. */
  function WithoutServer(rows: seq<ServerRow>, id: string): (r: seq<ServerRow>)
    ensures forall x :: x in r <==> x in rows && x.id != id
    ensures ServerKeys(rows) ==> ServerKeys(r)
  {
    if rows == [] then []
    else
      var rest := WithoutServer(rows[1..], id);
      assert forall x :: x in rows[1..] ==> x in rows;
      if rows[0].id != id then
        ServerHeadKeyFresh(rows);
        [rows[0]] + rest
      else rest
  }

  /** Under the primary key, the first server's id occurs nowhere after it. */
  lemma ServerHeadKeyFresh(rows: seq<ServerRow>)
    requires rows != []
    ensures ServerKeys(rows) ==> ServerKeys(rows[1..]) && forall x :: x in rows[1..] ==> x.id != rows[0].id
  {
    if ServerKeys(rows) {
      forall x | x in rows[1..] ensures x.id != rows[0].id {
        var k :| 0 <= k < |rows[1..]| && rows[1..][k] == x;
        assert rows[k + 1] == x;
      }
    }
  }

  /** The services `ON DELETE CASCADE` leaves when a server goes. */
  function WithoutServicesOf(rows: seq<ServiceRow>, serverId: string): (r: seq<ServiceRow>)
    ensures forall x :: x in r <==> x in rows && x.serverId != serverId
    ensures ServiceKeys(rows) ==> ServiceKeys(r)
  {
    if rows == [] then []
    else
      var rest := WithoutServicesOf(rows[1..], serverId);
      assert forall x :: x in rows[1..] ==> x in rows;
      if rows[0].serverId != serverId then
        HeadKeyFresh(rows);
        [rows[0]] + rest
      else rest
  }

  lemma NoRowsOfServer(rows: seq<ServiceRow>, serverId: string)
    requires forall x :: x in rows ==> x.serverId != serverId
    ensures RowsOfServer(rows, serverId) == []
  {
  }

  /** After `deleteServer`, the server is not found and none of its
      services is left; every other server and service stays. */
  lemma DeleteServerCascades(serverRows: seq<ServerRow>, serviceRows: seq<ServiceRow>, id: string)
    ensures LookupServer(WithoutServer(serverRows, id), WithoutServicesOf(serviceRows, id), id).None?
    ensures ServicesOf(WithoutServicesOf(serviceRows, id), id) == []
    ensures forall x :: x in serverRows && x.id != id ==> x in WithoutServer(serverRows, id)
    ensures forall x :: x in serviceRows && x.serverId != id ==> x in WithoutServicesOf(serviceRows, id)
  {
    NoRowsOfServer(WithoutServicesOf(serviceRows, id), id);
  }

  /** The cascade leaves every other server's services exactly as they
      were, in the same order. */
  lemma {:induction false} CascadeKeepsOthers(rows: seq<ServiceRow>, id: string, serverId: string)
    requires serverId != id
    ensures RowsOfServer(WithoutServicesOf(rows, id), serverId) == RowsOfServer(rows, serverId)
  {
    if rows != [] {
      CascadeKeepsOthers(rows[1..], id, serverId);
      var rest := WithoutServicesOf(rows[1..], id);
      if rows[0].serverId != id {
        assert WithoutServicesOf(rows, id) == [rows[0]] + rest;
        assert ([rows[0]] + rest)[1..] == rest;
      }
    }
  }

  /** Deleting a server leaves every other id finding the same row. */
  lemma {:induction false} DeleteKeepsLookups(rows: seq<ServerRow>, id: string, other: string)
    requires other != id
    ensures FindServer(WithoutServer(rows, id), other) == FindServer(rows, other)
  {
    if rows != [] {
      DeleteKeepsLookups(rows[1..], id, other);
      var rest := WithoutServer(rows[1..], id);
      if rows[0].id != id {
        assert WithoutServer(rows, id) == [rows[0]] + rest;
        assert ([rows[0]] + rest)[1..] == rest;
      }
    }
  }

  // ---- the functions of lib/db/servers.ts on the store ----

  /** `getAllServers()`. */
  method GetAllServers(store: Store) returns (r: seq<Server>)
    requires store.Valid()
    modifies store
    ensures store.Valid() && store.servers == old(store.servers) && store.services == old(store.services)
    ensures r == ServerList(store.servers, store.services)
  {
    var _ := store.GetDatabase();
    r := ServerList(store.servers, store.services);
  }

  /** `getServerById(id)`. */
  method GetServerById(store: Store, id: string) returns (r: Option<Server>)
    requires store.Valid()
    modifies store
    ensures store.Valid() && store.servers == old(store.servers) && store.services == old(store.services)
    ensures r == LookupServer(store.servers, store.services, id)
  {
    var _ := store.GetDatabase();
    r := LookupServer(store.servers, store.services, id);
  }

  lemma ServerIdsAppend(rows: seq<ServerRow>, row: ServerRow)
    ensures ServerIds(rows + [row]) == ServerIds(rows) + {row.id}
  {
    var after := rows + [row];
    forall x | x in ServerIds(after) ensures x in ServerIds(rows) + {row.id} {
      var i :| 0 <= i < |after| && after[i].id == x;
      if i < |rows| {
        assert rows[i].id == x;
      }
    }
    forall x | x in ServerIds(rows) ensures x in ServerIds(after) {
      var i :| 0 <= i < |rows| && rows[i].id == x;
      assert after[i].id == x;
    }
    assert after[|rows|].id == row.id;
  }

  /** A server just inserted is found with the fields of its row and, as
      the foreign key lets no service name an id not yet inserted, with no
      services. */
  lemma LookupCreated(serverRows: seq<ServerRow>, serviceRows: seq<ServiceRow>, row: ServerRow)
    requires row.id !in ServerIds(serverRows)
    requires forall x :: x in serviceRows ==> x.serverId in ServerIds(serverRows)
    ensures LookupServer(serverRows + [row], serviceRows, row.id) ==
      Some(Server(row.id, row.name, row.host, NonEmpty(row.description), []))
  {
    NoRowsOfServer(serviceRows, row.id);
    ServerIdsAppend(serverRows, row);
    var found := FindServer(serverRows + [row], row.id);
    var a :| 0 <= a < |serverRows + [row]| && (serverRows + [row])[a] == found.value;
  }

  /** Inserting a server with a fresh id keeps the primary key, and every
      service still refers to an existing server. */
  lemma ServerAppendKeepsKeys(rows: seq<ServerRow>, services: seq<ServiceRow>, row: ServerRow)
    requires ServerKeys(rows) && row.id !in ServerIds(rows)
    requires forall i :: 0 <= i < |services| ==> services[i].serverId in ServerIds(rows)
    ensures ServerKeys(rows + [row])
    ensures forall i :: 0 <= i < |services| ==> services[i].serverId in ServerIds(rows + [row])
    ensures forall x :: x in services ==> x.serverId in ServerIds(rows)
  {
    var after := rows + [row];
    assert forall i :: 0 <= i < |rows| ==> after[i] == rows[i];
    ServerIdsAppend(rows, row);
    forall x | x in services ensures x.serverId in ServerIds(rows) {
      var k :| 0 <= k < |services| && services[k] == x;
    }
  }

  /** `createServer(server)`: insert, then read the server back. `None`
      where the INSERT throws: the id is taken. */
  method CreateServer(store: Store, id: string, name: string, host: string, description: Option<string>)
    returns (r: Option<Server>)
    requires store.Valid()
    modifies store
    ensures store.Valid() && store.services == old(store.services)
    ensures r.Some? <==> id !in ServerIds(old(store.servers))
    ensures store.servers ==
      if r.Some? then old(store.servers) + [ServerRow(id, name, host, NonEmpty(description))] else old(store.servers)
    ensures r.Some? ==> r.value == Server(id, name, host, NonEmpty(description), [])
  {
    var _ := store.GetDatabase();
    if FindServer(store.servers, id).Some? {
      return None;
    }
    var before := store.servers;
    var row := ServerRow(id, name, host, NonEmpty(description));
    ServerAppendKeepsKeys(before, store.services, row);
    LookupCreated(before, store.services, row);
    store.servers := before + [row];
    r := GetServerById(store, id);
  }

  /** `updateServer(id, server)`: build the SET list, run it when it is not
      empty, and read the server back (`None` for an unknown id). */
  method UpdateServer(store: Store, id: string, p: ServerPatch) returns (r: Option<Server>)
    requires store.Valid()
    modifies store
    ensures store.Valid() && store.services == old(store.services)
    ensures store.servers == UpdatedServerRows(old(store.servers), id, p)
    ensures r == LookupServer(store.servers, store.services, id)
  {
    var _ := store.GetDatabase();
    var updates, values := BuildServerUpdate(id, p);
    var before := store.servers;
    ServerAssignmentsShape(p);
    if |updates| > 0 {
      ExecuteServerUpdate(before, id, p);
      var rows := ExecuteUpdate(before, ServerKey, SetServerColumn, updates, values);
      store.servers := rows.value;
    } else {
      assert UpdatedServerRows(before, id, p) == before;
    }
    assert ServerIds(store.servers) == ServerIds(before) by {
      assert forall i :: 0 <= i < |before| ==> store.servers[i].id == before[i].id;
    }
    r := GetServerById(store, id);
  }

  /** `deleteServer(id)`: the row goes, and its services with it. */
  method DeleteServer(store: Store, id: string)
    requires store.Valid()
    modifies store
    ensures store.Valid()
    ensures store.servers == WithoutServer(old(store.servers), id)
    ensures store.services == WithoutServicesOf(old(store.services), id)
  {
    var _ := store.GetDatabase();
    var before := store.servers;
    store.servers := WithoutServer(before, id);
    var services := store.services;
    store.services := WithoutServicesOf(services, id);
    ServerIdsMembers(store.servers);
    forall i | 0 <= i < |store.services| ensures store.services[i].serverId in ServerIds(store.servers) {
      var x := store.services[i];
      assert x in services;
      var k :| 0 <= k < |services| && services[k] == x;
      var j :| 0 <= j < |before| && before[j].id == x.serverId;
      assert before[j] in store.servers;
    }
  }
}
