// lib/db/services.ts: the services table seen through the record type. A
// record is normalised on the way in (empty text and 0 become NULL, the flag
// becomes 1/0, the protocol defaults to http) and read back with NULL and
// empty values as undefined. Partial updates name only the defined fields.
module ServiceStore {
  import opened Js
  import opened Models
  import opened Database
  import opened Sql

  /** `ServiceWithId`: a record together with its row id. */
  datatype ServiceWithId = ServiceWithId(id: string, service: ServiceDefinition)

  /** The shape every record read from the table has: no empty text, no
      `false` flag, no 0 expected status, and a protocol. */
  predicate Canonical(d: ServiceDefinition) {
    && d.description != Some("") && d.icon != Some("") && d.image != Some("")
    && d.color != Some("") && d.protocol.Some? && d.healthcheckEnabled != Some(false)
    && d.healthcheckUrl != Some("") && d.healthcheckExpectedStatus != Some(0)
    && d.publicUrl != Some("")
  }

  /** The row-to-record mapping (the object literal of `getServiceById` and
      the `map` of `getServicesByServerId`). */
  function ReadService(row: ServiceRow): (d: ServiceDefinition)
    ensures Canonical(d)
    ensures d.name == row.name && d.ports == row.ports && d.tags == row.tags
    ensures d.protocol == Some(row.protocol.GetOr(Http))
    ensures d.healthcheckEnabled.Some? <==> row.healthcheckEnabled != 0
    ensures d.description.Some? <==> Truthy(row.description)
    ensures d.publicUrl.Some? <==> Truthy(row.publicUrl)
  {
    ServiceDefinition(
      row.name,
      NonEmpty(row.description),
      row.ports,
      NonEmpty(row.image),
      NonEmpty(row.icon),
      NonEmpty(row.color),
      row.tags,
      Some(row.protocol.GetOr(Http)),
      if row.healthcheckEnabled != 0 then Some(true) else None,
      NonEmpty(row.healthcheckUrl),
      NonZero(row.healthcheckExpectedStatus),
      NonEmpty(row.publicUrl))
  }

  /** The id `createService` generates: the server id, a dash, and a
      time-and-random suffix (taken here as an input). */
  function ServiceId(serverId: string, suffix: string): (id: string)
    ensures serverId + "-" <= id
    ensures |id| == |serverId| + 1 + |suffix|
  {
    serverId + "-" + suffix
  }

  /** The row `createService` inserts. */
  function NewServiceRow(id: string, serverId: string, d: ServiceDefinition): (row: ServiceRow)
    ensures row.id == id && row.serverId == serverId && row.name == d.name
    ensures row.protocol.Some? && (d.protocol.Some? ==> row.protocol == d.protocol)
    ensures row.healthcheckEnabled == 1 <==> d.healthcheckEnabled == Some(true)
    ensures row.healthcheckEnabled == 0 <==> d.healthcheckEnabled != Some(true)
    ensures row.description != Some("") && row.icon != Some("") && row.image != Some("")
    ensures row.color != Some("") && row.healthcheckUrl != Some("") && row.publicUrl != Some("")
    ensures row.healthcheckExpectedStatus != Some(0)
  {
    ServiceRow(
      id, serverId, d.name,
      NonEmpty(d.description),
      d.ports,
      NonEmpty(d.icon),
      NonEmpty(d.image),
      NonEmpty(d.color),
      Some(d.protocol.GetOr(Http)),
      d.tags,
      if d.healthcheckEnabled == Some(true) then 1 else 0,
      NonEmpty(d.healthcheckUrl),
      NonZero(d.healthcheckExpectedStatus),
      NonEmpty(d.publicUrl))
  }

  /** What a write followed by a read does to a record: falsy optional
      values become undefined and the protocol is filled in. */
  function Canonicalize(d: ServiceDefinition): (c: ServiceDefinition)
    ensures Canonical(c)
  {
    d.(description := NonEmpty(d.description),
       icon := NonEmpty(d.icon),
       image := NonEmpty(d.image),
       color := NonEmpty(d.color),
       protocol := Some(d.protocol.GetOr(Http)),
       healthcheckEnabled := if d.healthcheckEnabled == Some(true) then Some(true) else None,
       healthcheckUrl := NonEmpty(d.healthcheckUrl),
       healthcheckExpectedStatus := NonZero(d.healthcheckExpectedStatus),
       publicUrl := NonEmpty(d.publicUrl))
  }

  /** Canonical records are exactly the ones normalisation leaves alone. */
  lemma CanonicalIsFixedPoint(d: ServiceDefinition)
    ensures Canonical(d) <==> Canonicalize(d) == d
  {
    if Canonicalize(d) == d {
      assert Canonical(Canonicalize(d));
    }
    if Canonical(d) {
      var c := Canonicalize(d);
      assert c.description == d.description && c.icon == d.icon && c.image == d.image;
      assert c.color == d.color && c.healthcheckUrl == d.healthcheckUrl && c.publicUrl == d.publicUrl;
      assert c.healthcheckExpectedStatus == d.healthcheckExpectedStatus;
      match d.healthcheckEnabled {
        case None =>
        case Some(b) => assert d.healthcheckEnabled != Some(false); assert b;
      }
      assert c.healthcheckEnabled == d.healthcheckEnabled;
      assert c.protocol == d.protocol;
    }
  }

  /** Round trip: reading back a created service gives the normalised
      record; name, ports and tags always survive unchanged. */
  lemma ReadBackCreated(id: string, serverId: string, d: ServiceDefinition)
    ensures ReadService(NewServiceRow(id, serverId, d)) == Canonicalize(d)
    ensures Canonical(d) ==> ReadService(NewServiceRow(id, serverId, d)) == d
  {
    CanonicalIsFixedPoint(d);
  }

  /** The rows `SELECT * FROM services WHERE server_id = ?` returns, in
      table order. */
  function RowsOfServer(rows: seq<ServiceRow>, serverId: string): (r: seq<ServiceRow>)
    ensures |r| <= |rows|
    ensures forall x :: x in r <==> x in rows && x.serverId == serverId
    ensures ServiceKeys(rows) ==> ServiceKeys(r)
  {
    if rows == [] then []
    else
      var rest := RowsOfServer(rows[1..], serverId);
      assert forall x :: x in rows[1..] ==> x in rows;
      if rows[0].serverId == serverId then
        HeadKeyFresh(rows);
        [rows[0]] + rest
      else rest
  }

  /** Under the primary key, the first row's id occurs nowhere after it. */
  lemma HeadKeyFresh(rows: seq<ServiceRow>)
    requires rows != []
    ensures ServiceKeys(rows) ==> ServiceKeys(rows[1..]) && forall x :: x in rows[1..] ==> x.id != rows[0].id
  {
    if ServiceKeys(rows) {
      forall x | x in rows[1..] ensures x.id != rows[0].id {
        var k :| 0 <= k < |rows[1..]| && rows[1..][k] == x;
        assert rows[k + 1] == x;
      }
    }
  }

  /** `getServicesByServerId` on the rows of the table. */
  function ServicesOf(rows: seq<ServiceRow>, serverId: string): (r: seq<ServiceWithId>)
    ensures |r| == |RowsOfServer(rows, serverId)|
    ensures forall i :: 0 <= i < |r| ==>
      r[i] == ServiceWithId(RowsOfServer(rows, serverId)[i].id, ReadService(RowsOfServer(rows, serverId)[i]))
  {
    var matching := RowsOfServer(rows, serverId);
    seq(|matching|, i requires 0 <= i < |matching| => ServiceWithId(matching[i].id, ReadService(matching[i])))
  }

  /** A service is listed for a server exactly when its row belongs to that
      server. */
  lemma ServicesOfMembers(rows: seq<ServiceRow>, serverId: string, row: ServiceRow)
    requires ServiceKeys(rows) && row in rows
    ensures ServiceWithId(row.id, ReadService(row)) in ServicesOf(rows, serverId) <==> row.serverId == serverId
    ensures forall s :: s in ServicesOf(rows, serverId) ==>
      exists x :: x in rows && x.serverId == serverId && s == ServiceWithId(x.id, ReadService(x))
  {
    var matching := RowsOfServer(rows, serverId);
    var r := ServicesOf(rows, serverId);
    if row.serverId == serverId {
      var k :| 0 <= k < |matching| && matching[k] == row;
      assert r[k] == ServiceWithId(row.id, ReadService(row));
    }
    forall s | s in r
      ensures exists x :: x in rows && x.serverId == serverId && s == ServiceWithId(x.id, ReadService(x))
    {
      var k :| 0 <= k < |r| && r[k] == s;
      assert matching[k] in matching;
    }
  }

  /** The row with that id, if any (`SELECT * FROM services WHERE id = ?`). */
  function FindService(rows: seq<ServiceRow>, id: string): (r: Option<ServiceRow>)
    ensures r.None? <==> forall i :: 0 <= i < |rows| ==> rows[i].id != id
    ensures r.Some? ==> r.value in rows && r.value.id == id
  {
    if rows == [] then None
    else if rows[0].id == id then Some(rows[0])
    else
      var r := FindService(rows[1..], id);
      assert forall i :: 1 <= i < |rows| ==> rows[i] == rows[1..][i - 1];
      r
  }

  /** `getServiceById` on the rows of the table. */
  function ServiceById(rows: seq<ServiceRow>, id: string): (r: Option<ServiceDefinition>)
    ensures r.None? <==> forall i :: 0 <= i < |rows| ==> rows[i].id != id
    ensures r.Some? ==> exists i :: 0 <= i < |rows| && rows[i].id == id && r.value == ReadService(rows[i])
  {
    var row := FindService(rows, id);
    if row.Some? then Some(ReadService(row.value)) else None
  }

  /** The rows left by `DELETE FROM services WHERE id = ?`. */
  function WithoutService(rows: seq<ServiceRow>, id: string): (r: seq<ServiceRow>)
    ensures forall x :: x in r <==> x in rows && x.id != id
    ensures ServiceKeys(rows) ==> ServiceKeys(r)
  {
    if rows == [] then []
    else
      var rest := WithoutService(rows[1..], id);
      assert forall x :: x in rows[1..] ==> x in rows;
      if rows[0].id != id then
        HeadKeyFresh(rows);
        [rows[0]] + rest
      else rest
  }

  // ---- updateService: the partial update ----

  /** The columns `updateService` can set, in the order it checks them. */
  datatype ServiceColumn =
    | NameColumn | DescriptionColumn | PortsColumn | IconColumn | ImageColumn | ColorColumn
    | ProtocolColumn | TagsColumn | HealthcheckEnabledColumn | HealthcheckUrlColumn
    | HealthcheckExpectedStatusColumn | PublicUrlColumn

  function ColumnName(c: ServiceColumn): string {
    match c
    case NameColumn => "name"
    case DescriptionColumn => "description"
    case PortsColumn => "ports"
    case IconColumn => "icon"
    case ImageColumn => "image"
    case ColorColumn => "color"
    case ProtocolColumn => "protocol"
    case TagsColumn => "tags"
    case HealthcheckEnabledColumn => "healthcheck_enabled"
    case HealthcheckUrlColumn => "healthcheck_url"
    case HealthcheckExpectedStatusColumn => "healthcheck_expected_status"
    case PublicUrlColumn => "public_url"
  }

  /** The column a name in a SET list refers to. */
  function ColumnNamed(name: string): (c: Option<ServiceColumn>)
    ensures c.Some? ==> ColumnName(c.value) == name
  {
    if name == "name" then Some(NameColumn)
    else if name == "description" then Some(DescriptionColumn)
    else if name == "ports" then Some(PortsColumn)
    else if name == "icon" then Some(IconColumn)
    else if name == "image" then Some(ImageColumn)
    else if name == "color" then Some(ColorColumn)
    else if name == "protocol" then Some(ProtocolColumn)
    else if name == "tags" then Some(TagsColumn)
    else if name == "healthcheck_enabled" then Some(HealthcheckEnabledColumn)
    else if name == "healthcheck_url" then Some(HealthcheckUrlColumn)
    else if name == "healthcheck_expected_status" then Some(HealthcheckExpectedStatusColumn)
    else if name == "public_url" then Some(PublicUrlColumn)
    else None
  }

  /** Column names are distinct, and every one is a column of the table. */
  lemma ColumnNamesDistinct(c: ServiceColumn)
    ensures ColumnNamed(ColumnName(c)) == Some(c)
    ensures ColumnName(c) in ServiceColumns
    ensures NoMarks(ColumnName(c))
  {
    ColumnNamedInverse(c);
    ColumnNameListed(c);
    ColumnNameUnmarked(c);
  }

  lemma ColumnNameUnmarked(c: ServiceColumn)
    ensures NoMarks(ColumnName(c))
  {
    var name := ColumnName(c);
    assert '?' !in name;
    forall i | 0 <= i < |name| ensures name[i] != '?' {
      assert name[i] in name;
    }
  }

  lemma ColumnNamedInverse(c: ServiceColumn)
    ensures ColumnNamed(ColumnName(c)) == Some(c)
  {
    match c
    case NameColumn =>
    case DescriptionColumn =>
    case PortsColumn =>
    case IconColumn =>
    case ImageColumn =>
    case ColorColumn =>
    case ProtocolColumn =>
    case TagsColumn =>
    case HealthcheckEnabledColumn =>
    case HealthcheckUrlColumn =>
    case HealthcheckExpectedStatusColumn =>
    case PublicUrlColumn =>
  }

  lemma ColumnNameListed(c: ServiceColumn)
    ensures ColumnName(c) in ServiceColumns
  {
  }

  /** Position of a column in the order the fields are checked. */
  function Rank(c: ServiceColumn): nat {
    match c
    case NameColumn => 0
    case DescriptionColumn => 1
    case PortsColumn => 2
    case IconColumn => 3
    case ImageColumn => 4
    case ColorColumn => 5
    case ProtocolColumn => 6
    case TagsColumn => 7
    case HealthcheckEnabledColumn => 8
    case HealthcheckUrlColumn => 9
    case HealthcheckExpectedStatusColumn => 10
    case PublicUrlColumn => 11
  }

  /** Position of a named column; -1 for a name that is not one. */
  function Position(name: string): int {
    match ColumnNamed(name)
    case Some(c) => Rank(c)
    case None => -1
  }

  const UpdateOrder: seq<ServiceColumn> := [
    NameColumn, DescriptionColumn, PortsColumn, IconColumn, ImageColumn, ColorColumn,
    ProtocolColumn, TagsColumn, HealthcheckEnabledColumn, HealthcheckUrlColumn,
    HealthcheckExpectedStatusColumn, PublicUrlColumn ]

  predicate RankOrdered(cols: seq<ServiceColumn>) {
    forall i, j :: 0 <= i < j < |cols| ==> Rank(cols[i]) < Rank(cols[j])
  }

  /** The argument of `updateService`: every field optional, `None` being
      `undefined` (the field is left alone). */
  datatype ServicePatch = ServicePatch(
    name: Option<string>,
    description: Option<string>,
    ports: Option<seq<nat>>,
    icon: Option<string>,
    image: Option<string>,
    color: Option<string>,
    protocol: Option<Protocol>,
    tags: Option<seq<string>>,
    healthcheckEnabled: Option<bool>,
    healthcheckUrl: Option<string>,
    healthcheckExpectedStatus: Option<int>,
    publicUrl: Option<string>)

  const EmptyPatch := ServicePatch(None, None, None, None, None, None, None, None, None, None, None, None)

  predicate IsDefined(p: ServicePatch, c: ServiceColumn) {
    match c
    case NameColumn => p.name.Some?
    case DescriptionColumn => p.description.Some?
    case PortsColumn => p.ports.Some?
    case IconColumn => p.icon.Some?
    case ImageColumn => p.image.Some?
    case ColorColumn => p.color.Some?
    case ProtocolColumn => p.protocol.Some?
    case TagsColumn => p.tags.Some?
    case HealthcheckEnabledColumn => p.healthcheckEnabled.Some?
    case HealthcheckUrlColumn => p.healthcheckUrl.Some?
    case HealthcheckExpectedStatusColumn => p.healthcheckExpectedStatus.Some?
    case PublicUrlColumn => p.publicUrl.Some?
  }

  /** The value pushed for a defined field: text and 0 as NULL when falsy,
      the arrays as JSON, the flag as 1/0, the name and protocol as given. */
  function PatchValue(p: ServicePatch, c: ServiceColumn): SqlValue
    requires IsDefined(p, c)
  {
    match c
    case NameColumn => Text(p.name.value)
    case DescriptionColumn => TextOrNull(p.description.value)
    case PortsColumn => PortsJson(p.ports.value)
    case IconColumn => TextOrNull(p.icon.value)
    case ImageColumn => TextOrNull(p.image.value)
    case ColorColumn => TextOrNull(p.color.value)
    case ProtocolColumn => Text(ProtocolName(p.protocol.value))
    case TagsColumn => TagsJson(p.tags.value)
    case HealthcheckEnabledColumn => Integer(if p.healthcheckEnabled.value then 1 else 0)
    case HealthcheckUrlColumn => TextOrNull(p.healthcheckUrl.value)
    case HealthcheckExpectedStatusColumn =>
      if p.healthcheckExpectedStatus.value == 0 then Null else Integer(p.healthcheckExpectedStatus.value)
    case PublicUrlColumn => TextOrNull(p.publicUrl.value)
  }

  /** One `if (service.x !== undefined)` block: its entry, or nothing. */
  function Step(p: ServicePatch, c: ServiceColumn): seq<Assignment> {
    if IsDefined(p, c) then [Assignment(ColumnName(c), PatchValue(p, c))] else []
  }

  function AssignmentsOver(p: ServicePatch, cols: seq<ServiceColumn>): seq<Assignment> {
    if cols == [] then [] else Step(p, cols[0]) + AssignmentsOver(p, cols[1..])
  }

  /** The SET list `updateService` builds for a patch, with its values. */
  function ServiceAssignments(p: ServicePatch): seq<Assignment> {
    AssignmentsOver(p, UpdateOrder)
  }

  /** Every entry of the SET list is a walked, defined field with its
      value. */
  lemma {:induction false} AssignmentsOverEntries(p: ServicePatch, cols: seq<ServiceColumn>)
    ensures forall a :: a in AssignmentsOver(p, cols) ==>
      exists c :: c in cols && IsDefined(p, c) && a == Assignment(ColumnName(c), PatchValue(p, c))
  {
    if cols != [] {
      var rest := AssignmentsOver(p, cols[1..]);
      AssignmentsOverEntries(p, cols[1..]);
      forall a | a in AssignmentsOver(p, cols)
        ensures exists c :: c in cols && IsDefined(p, c) && a == Assignment(ColumnName(c), PatchValue(p, c))
      {
        if a !in Step(p, cols[0]) {
          assert a in rest;
          var c :| c in cols[1..] && IsDefined(p, c) && a == Assignment(ColumnName(c), PatchValue(p, c));
          assert c in cols;
        }
      }
    }
  }

  /** Each walked field has an entry in the SET list exactly when it is
      defined. */
  lemma {:induction false} AssignmentsOverCover(p: ServicePatch, cols: seq<ServiceColumn>)
    ensures forall c :: c in cols ==> (IsDefined(p, c) <==> ColumnName(c) in ColumnsOf(AssignmentsOver(p, cols)))
  {
    if cols != [] {
      var rest := AssignmentsOver(p, cols[1..]);
      var r := AssignmentsOver(p, cols);
      AssignmentsOverCover(p, cols[1..]);
      AssignmentsOverEntries(p, cols);
      assert r == Step(p, cols[0]) + rest;
      forall c | c in cols
        ensures IsDefined(p, c) <==> ColumnName(c) in ColumnsOf(r)
      {
        if IsDefined(p, c) {
          if c == cols[0] {
            assert ColumnsOf(r)[0] == ColumnName(c);
          } else {
            assert c in cols[1..];
            var k :| 0 <= k < |rest| && ColumnsOf(rest)[k] == ColumnName(c);
            assert ColumnsOf(r)[k + |Step(p, cols[0])|] == ColumnName(c);
          }
        } else if ColumnName(c) in ColumnsOf(r) {
          var k :| 0 <= k < |r| && ColumnsOf(r)[k] == ColumnName(c);
          assert r[k] in r;
          var c' :| c' in cols && IsDefined(p, c') && r[k] == Assignment(ColumnName(c'), PatchValue(p, c'));
          ColumnNamesDistinct(c);
          ColumnNamesDistinct(c');
        }
      }
    }
  }

  /** An entry's position is the rank of one of the walked columns. */
  lemma {:induction false} AssignmentsOverPositions(p: ServicePatch, cols: seq<ServiceColumn>)
    ensures forall a :: a in AssignmentsOver(p, cols) ==> exists c :: c in cols && Position(a.column) == Rank(c)
  {
    if cols != [] {
      AssignmentsOverPositions(p, cols[1..]);
      ColumnNamesDistinct(cols[0]);
      forall a | a in AssignmentsOver(p, cols) ensures exists c :: c in cols && Position(a.column) == Rank(c) {
        assert AssignmentsOver(p, cols) == Step(p, cols[0]) + AssignmentsOver(p, cols[1..]);
        if a in Step(p, cols[0]) {
          assert a.column == ColumnName(cols[0]);
          assert Position(a.column) == Rank(cols[0]) && cols[0] in cols;
        } else {
          assert a in AssignmentsOver(p, cols[1..]);
          var c :| c in cols[1..] && Position(a.column) == Rank(c);
          assert c in cols;
        }
      }
    }
  }

  /** Walking the columns in field order gives entries in field order, so
      no column is set twice. */
  lemma {:induction false} AssignmentsOverOrdered(p: ServicePatch, cols: seq<ServiceColumn>)
    requires RankOrdered(cols)
    ensures forall i, j :: 0 <= i < j < |AssignmentsOver(p, cols)| ==>
      Position(AssignmentsOver(p, cols)[i].column) < Position(AssignmentsOver(p, cols)[j].column)
  {
    if cols != [] {
      var rest := AssignmentsOver(p, cols[1..]);
      var r := AssignmentsOver(p, cols);
      var head := Step(p, cols[0]);
      assert RankOrdered(cols[1..]);
      AssignmentsOverOrdered(p, cols[1..]);
      AssignmentsOverPositions(p, cols[1..]);
      forall a | a in rest ensures Position(a.column) > Rank(cols[0]) {
        var c :| c in cols[1..] && Position(a.column) == Rank(c);
        var k :| 0 <= k < |cols[1..]| && cols[1..][k] == c;
        assert cols[k + 1] == c;
      }
      ColumnNamesDistinct(cols[0]);
      assert r == head + rest;
      OrderedAfterHead(head, rest, Rank(cols[0]));
    }
  }

  /** Column positions strictly increase along a SET list. */
  predicate PositionsIncrease(a: seq<Assignment>) {
    forall i, j :: 0 <= i < j < |a| ==> Position(a[i].column) < Position(a[j].column)
  }

  /** At most one entry at position `k`, put before entries all past `k`,
      keeps positions increasing. */
  lemma OrderedAfterHead(head: seq<Assignment>, rest: seq<Assignment>, k: int)
    requires |head| <= 1 && forall a :: a in head ==> Position(a.column) == k
    requires forall a :: a in rest ==> Position(a.column) > k
    requires PositionsIncrease(rest)
    ensures PositionsIncrease(head + rest)
  {
    var r := head + rest;
    forall i, j | 0 <= i < j < |r| ensures Position(r[i].column) < Position(r[j].column) {
      assert r[j] == rest[j - |head|];
      if i < |head| {
        assert r[i] in head;
        assert r[j] in rest;
      } else {
        assert r[i] == rest[i - |head|];
      }
    }
  }

  /** Every column appears in the order walked by `updateService`. */
  lemma UpdateOrderComplete(c: ServiceColumn)
    ensures c in UpdateOrder
    ensures RankOrdered(UpdateOrder)
  {
    assert UpdateOrder[Rank(c)] == c;
    UpdateOrderRanked();
  }

  lemma UpdateOrderRanked()
    ensures forall i :: 0 <= i < |UpdateOrder| ==> Rank(UpdateOrder[i]) == i
  {
  }

  /** `updateService`'s SET list names each defined field once, in the
      field order, and nothing else. */
  lemma ServiceAssignmentsShape(p: ServicePatch)
    ensures forall c :: IsDefined(p, c) <==> ColumnName(c) in ColumnsOf(ServiceAssignments(p))
    ensures forall i, j :: 0 <= i < j < |ServiceAssignments(p)| ==>
      Position(ServiceAssignments(p)[i].column) < Position(ServiceAssignments(p)[j].column)
    ensures forall i :: 0 <= i < |ServiceAssignments(p)| ==> ServiceAssignments(p)[i].column in ServiceColumns
  {
    AssignmentsOverEntries(p, UpdateOrder);
    AssignmentsOverCover(p, UpdateOrder);
    UpdateOrderComplete(NameColumn);
    AssignmentsOverOrdered(p, UpdateOrder);
    forall c ensures IsDefined(p, c) <==> ColumnName(c) in ColumnsOf(ServiceAssignments(p)) {
      UpdateOrderComplete(c);
    }
    forall i | 0 <= i < |ServiceAssignments(p)| ensures ServiceAssignments(p)[i].column in ServiceColumns {
      var a := ServiceAssignments(p)[i];
      assert a in ServiceAssignments(p);
      var c :| c in UpdateOrder && IsDefined(p, c) && a == Assignment(ColumnName(c), PatchValue(p, c));
      ColumnNamesDistinct(c);
    }
  }

  // ---- what the UPDATE does to a row ----

  /** A bound value stored in a nullable text column. */
  function TextValue(v: SqlValue): Option<string> {
    if v.Text? then Some(v.text) else None
  }

  /** The protocol a stored text stands for. */
  function ProtocolOf(v: SqlValue): (r: Option<Protocol>)
    ensures forall x :: v == Text(ProtocolName(x)) ==> r == Some(x)
  {
    if v == Text("http") then Some(Http) else if v == Text("https") then Some(Https) else None
  }

  /** Store one bound value in one column of a row. */
  function SetField(row: ServiceRow, c: ServiceColumn, v: SqlValue): ServiceRow {
    match c
    case NameColumn => if v.Text? then row.(name := v.text) else row
    case DescriptionColumn => row.(description := TextValue(v))
    case PortsColumn => if v.PortsJson? then row.(ports := v.ports) else row
    case IconColumn => row.(icon := TextValue(v))
    case ImageColumn => row.(image := TextValue(v))
    case ColorColumn => row.(color := TextValue(v))
    case ProtocolColumn => row.(protocol := ProtocolOf(v))
    case TagsColumn => row.(tags := if v.TagsJson? then Some(v.tags) else None)
    case HealthcheckEnabledColumn => if v.Integer? then row.(healthcheckEnabled := v.number) else row
    case HealthcheckUrlColumn => row.(healthcheckUrl := TextValue(v))
    case HealthcheckExpectedStatusColumn =>
      row.(healthcheckExpectedStatus := if v.Integer? then Some(v.number) else None)
    case PublicUrlColumn => row.(publicUrl := TextValue(v))
  }

  /** `column = ?` with a value, as the engine executes it on the services
      table; a name that is no column leaves the row alone. */
  function SetServiceColumn(row: ServiceRow, column: string, v: SqlValue): ServiceRow {
    match ColumnNamed(column)
    case Some(c) => SetField(row, c, v)
    case None => row
  }

  /** What a patch means for a row, field by field: a defined field replaces
      the column (falsy text and 0 as NULL, the flag as 1/0), an undefined
      one keeps it; the keys never change. */
  function PatchedRow(row: ServiceRow, p: ServicePatch): (r: ServiceRow)
    ensures r.id == row.id && r.serverId == row.serverId
  {
    ServiceRow(
      row.id, row.serverId,
      p.name.GetOr(row.name),
      if p.description.Some? then NonEmpty(p.description) else row.description,
      p.ports.GetOr(row.ports),
      if p.icon.Some? then NonEmpty(p.icon) else row.icon,
      if p.image.Some? then NonEmpty(p.image) else row.image,
      if p.color.Some? then NonEmpty(p.color) else row.color,
      if p.protocol.Some? then p.protocol else row.protocol,
      if p.tags.Some? then p.tags else row.tags,
      if p.healthcheckEnabled.Some? then (if p.healthcheckEnabled.value then 1 else 0) else row.healthcheckEnabled,
      if p.healthcheckUrl.Some? then NonEmpty(p.healthcheckUrl) else row.healthcheckUrl,
      if p.healthcheckExpectedStatus.Some? then NonZero(p.healthcheckExpectedStatus) else row.healthcheckExpectedStatus,
      if p.publicUrl.Some? then NonEmpty(p.publicUrl) else row.publicUrl)
  }

  function SetIfDefined(row: ServiceRow, p: ServicePatch, c: ServiceColumn): ServiceRow {
    if IsDefined(p, c) then SetField(row, c, PatchValue(p, c)) else row
  }

  /** One column's share of `PatchedRow`. */
  function PatchField(row: ServiceRow, p: ServicePatch, c: ServiceColumn): ServiceRow {
    match c
    case NameColumn => row.(name := p.name.GetOr(row.name))
    case DescriptionColumn => row.(description := if p.description.Some? then NonEmpty(p.description) else row.description)
    case PortsColumn => row.(ports := p.ports.GetOr(row.ports))
    case IconColumn => row.(icon := if p.icon.Some? then NonEmpty(p.icon) else row.icon)
    case ImageColumn => row.(image := if p.image.Some? then NonEmpty(p.image) else row.image)
    case ColorColumn => row.(color := if p.color.Some? then NonEmpty(p.color) else row.color)
    case ProtocolColumn => row.(protocol := if p.protocol.Some? then p.protocol else row.protocol)
    case TagsColumn => row.(tags := if p.tags.Some? then p.tags else row.tags)
    case HealthcheckEnabledColumn =>
      row.(healthcheckEnabled :=
        if p.healthcheckEnabled.Some? then (if p.healthcheckEnabled.value then 1 else 0) else row.healthcheckEnabled)
    case HealthcheckUrlColumn =>
      row.(healthcheckUrl := if p.healthcheckUrl.Some? then NonEmpty(p.healthcheckUrl) else row.healthcheckUrl)
    case HealthcheckExpectedStatusColumn =>
      row.(healthcheckExpectedStatus :=
        if p.healthcheckExpectedStatus.Some? then NonZero(p.healthcheckExpectedStatus) else row.healthcheckExpectedStatus)
    case PublicUrlColumn => row.(publicUrl := if p.publicUrl.Some? then NonEmpty(p.publicUrl) else row.publicUrl)
  }

  /** Storing the pushed value of a defined field is that field's share of
      the patch. */
  lemma SetIfDefinedIsPatchField(row: ServiceRow, p: ServicePatch, c: ServiceColumn)
    ensures SetIfDefined(row, p, c) == PatchField(row, p, c)
  {
    if c == ProtocolColumn && p.protocol.Some? {
      assert ProtocolOf(Text(ProtocolName(p.protocol.value))) == p.protocol;
    }
  }

  function FoldPatch(row: ServiceRow, p: ServicePatch, cols: seq<ServiceColumn>): ServiceRow
    decreases |cols|
  {
    if cols == [] then row else FoldPatch(PatchField(row, p, cols[0]), p, cols[1..])
  }

  lemma {:induction false} ApplyAssignmentsOver(row: ServiceRow, p: ServicePatch, cols: seq<ServiceColumn>)
    ensures ApplyAssignments(row, SetServiceColumn, AssignmentsOver(p, cols)) == FoldPatch(row, p, cols)
    decreases |cols|
  {
    if cols != [] {
      var c := cols[0];
      ColumnNamesDistinct(c);
      ApplyAssignmentsAppend(row, SetServiceColumn, Step(p, c), AssignmentsOver(p, cols[1..]));
      assert ApplyAssignments(row, SetServiceColumn, Step(p, c)) == SetIfDefined(row, p, c);
      SetIfDefinedIsPatchField(row, p, c);
      ApplyAssignmentsOver(PatchField(row, p, c), p, cols[1..]);
    }
  }

  /** The shares of the first six columns, one after another. */
  function EarlierFields(row: ServiceRow, p: ServicePatch): ServiceRow {
    var r := PatchField(row, p, NameColumn);
    var r := PatchField(r, p, DescriptionColumn);
    var r := PatchField(r, p, PortsColumn);
    var r := PatchField(r, p, IconColumn);
    var r := PatchField(r, p, ImageColumn);
    PatchField(r, p, ColorColumn)
  }

  /** The shares of the last six columns, one after another. */
  function LaterFields(row: ServiceRow, p: ServicePatch): ServiceRow {
    var r := PatchField(row, p, ProtocolColumn);
    var r := PatchField(r, p, TagsColumn);
    var r := PatchField(r, p, HealthcheckEnabledColumn);
    var r := PatchField(r, p, HealthcheckUrlColumn);
    var r := PatchField(r, p, HealthcheckExpectedStatusColumn);
    PatchField(r, p, PublicUrlColumn)
  }

  /** The fold over the fixed column order, unfolded. */
  lemma FoldPatchUnfolded(row: ServiceRow, p: ServicePatch)
    ensures FoldPatch(row, p, UpdateOrder) == LaterFields(EarlierFields(row, p), p)
  {
    FoldFirstHalf(row, p);
    FoldSecondHalf(EarlierFields(row, p), p);
  }

  /** The fold over the first six columns. */
  lemma FoldFirstHalf(row: ServiceRow, p: ServicePatch)
    ensures FoldPatch(row, p, UpdateOrder) == FoldPatch(EarlierFields(row, p), p, UpdateOrder[6..])
  {
    var o := UpdateOrder;
    var r0 := row;
    var r1 := PatchField(r0, p, NameColumn);
    assert FoldPatch(r0, p, o[0..]) == FoldPatch(r1, p, o[1..]);
    var r2 := PatchField(r1, p, DescriptionColumn);
    assert FoldPatch(r1, p, o[1..]) == FoldPatch(r2, p, o[2..]);
    var r3 := PatchField(r2, p, PortsColumn);
    assert FoldPatch(r2, p, o[2..]) == FoldPatch(r3, p, o[3..]);
    var r4 := PatchField(r3, p, IconColumn);
    assert FoldPatch(r3, p, o[3..]) == FoldPatch(r4, p, o[4..]);
    var r5 := PatchField(r4, p, ImageColumn);
    assert FoldPatch(r4, p, o[4..]) == FoldPatch(r5, p, o[5..]);
    var r6 := PatchField(r5, p, ColorColumn);
    assert FoldPatch(r5, p, o[5..]) == FoldPatch(r6, p, o[6..]);
    assert o[0..] == o;
  }

  /** The fold over the last six columns. */
  lemma FoldSecondHalf(row: ServiceRow, p: ServicePatch)
    ensures FoldPatch(row, p, UpdateOrder[6..]) == LaterFields(row, p)
  {
    var o := UpdateOrder;
    var r6 := row;
    var r7 := PatchField(r6, p, ProtocolColumn);
    assert FoldPatch(r6, p, o[6..]) == FoldPatch(r7, p, o[7..]);
    var r8 := PatchField(r7, p, TagsColumn);
    assert FoldPatch(r7, p, o[7..]) == FoldPatch(r8, p, o[8..]);
    var r9 := PatchField(r8, p, HealthcheckEnabledColumn);
    assert FoldPatch(r8, p, o[8..]) == FoldPatch(r9, p, o[9..]);
    var r10 := PatchField(r9, p, HealthcheckUrlColumn);
    assert FoldPatch(r9, p, o[9..]) == FoldPatch(r10, p, o[10..]);
    var r11 := PatchField(r10, p, HealthcheckExpectedStatusColumn);
    assert FoldPatch(r10, p, o[10..]) == FoldPatch(r11, p, o[11..]);
    var r12 := PatchField(r11, p, PublicUrlColumn);
    assert FoldPatch(r11, p, o[11..]) == FoldPatch(r12, p, o[12..]);
    assert o[12..] == [];
  }

  /** The fold over the fixed column order is the field-wise meaning. */
  lemma FoldPatchInOrder(row: ServiceRow, p: ServicePatch)
    ensures FoldPatch(row, p, UpdateOrder) == PatchedRow(row, p)
  {
    FoldPatchUnfolded(row, p);
    PatchFieldsMakePatchedRow(row, p);
  }

  /** Each column's share, one after another, is the whole patch. */
  lemma PatchFieldsMakePatchedRow(row: ServiceRow, p: ServicePatch)
    ensures LaterFields(EarlierFields(row, p), p) == PatchedRow(row, p)
  {
  }

  /** Executing the SET list `updateService` builds changes a row exactly as
      the patch means: defined fields replaced, the others kept. */
  lemma UpdateMeansPatch(row: ServiceRow, p: ServicePatch)
    ensures ApplyAssignments(row, SetServiceColumn, ServiceAssignments(p)) == PatchedRow(row, p)
  {
    ApplyAssignmentsOver(row, p, UpdateOrder);
    FoldPatchInOrder(row, p);
  }

  /** A patch laid over a record: defined fields replace, the others stay. */
  function Override(d: ServiceDefinition, p: ServicePatch): ServiceDefinition {
    ServiceDefinition(
      p.name.GetOr(d.name),
      if p.description.Some? then p.description else d.description,
      p.ports.GetOr(d.ports),
      if p.image.Some? then p.image else d.image,
      if p.icon.Some? then p.icon else d.icon,
      if p.color.Some? then p.color else d.color,
      if p.tags.Some? then p.tags else d.tags,
      if p.protocol.Some? then p.protocol else d.protocol,
      if p.healthcheckEnabled.Some? then p.healthcheckEnabled else d.healthcheckEnabled,
      if p.healthcheckUrl.Some? then p.healthcheckUrl else d.healthcheckUrl,
      if p.healthcheckExpectedStatus.Some? then p.healthcheckExpectedStatus else d.healthcheckExpectedStatus,
      if p.publicUrl.Some? then p.publicUrl else d.publicUrl)
  }

  /** Reading a service after an update gives the old record with the
      patch laid over it, normalised as every read is. */
  lemma ReadAfterUpdate(row: ServiceRow, p: ServicePatch)
    ensures ReadService(PatchedRow(row, p)) == Canonicalize(Override(ReadService(row), p))
  {
    var lhs := ReadService(PatchedRow(row, p));
    var rhs := Canonicalize(Override(ReadService(row), p));
    assert lhs.healthcheckEnabled == rhs.healthcheckEnabled;
    assert lhs.protocol == rhs.protocol;
  }

  /** No SET entry at all exactly when no field is defined, and then the
      row is left as it was (no statement runs). */
  lemma EmptyPatchUpdatesNothing(row: ServiceRow, p: ServicePatch)
    ensures ServiceAssignments(p) == [] <==> p == EmptyPatch
    ensures PatchedRow(row, EmptyPatch) == row
  {
    ServiceAssignmentsUnfolded(p);
  }

  /** Walking one more column appends that column's block. */
  lemma {:induction false} AssignmentsOverSnoc(p: ServicePatch, cols: seq<ServiceColumn>, c: ServiceColumn)
    ensures AssignmentsOver(p, cols + [c]) == AssignmentsOver(p, cols) + Step(p, c)
  {
    if cols == [] {
      assert cols + [c] == [c];
    } else {
      assert (cols + [c])[1..] == cols[1..] + [c];
      AssignmentsOverSnoc(p, cols[1..], c);
    }
  }

  /** One `if (service.x !== undefined) { updates.push("x = ?");
      values.push(...) }` block. */
  method PushIfDefined(updates: seq<string>, values: seq<SqlValue>, ghost a: seq<Assignment>,
                       p: ServicePatch, c: ServiceColumn)
    returns (updates': seq<string>, values': seq<SqlValue>, ghost a': seq<Assignment>)
    requires updates == Placeholders(a) && values == ValuesOf(a)
    ensures updates' == updates + Placeholders(Step(p, c))
    ensures values' == values + ValuesOf(Step(p, c))
    ensures a' == a + Step(p, c) && updates' == Placeholders(a') && values' == ValuesOf(a')
  {
    a' := a + Step(p, c);
    PlaceholdersAppend(a, Step(p, c));
    if IsDefined(p, c) {
      updates' := updates + [Placeholder(ColumnName(c))];
      values' := values + [PatchValue(p, c)];
    } else {
      updates', values' := updates, values;
    }
  }

  /** The SET list written out field by field, in the order of the
      source's blocks. */
  lemma ServiceAssignmentsUnfolded(p: ServicePatch)
    ensures ServiceAssignments(p) ==
      [] + Step(p, NameColumn) + Step(p, DescriptionColumn) + Step(p, PortsColumn)
      + Step(p, IconColumn) + Step(p, ImageColumn) + Step(p, ColorColumn)
      + Step(p, ProtocolColumn) + Step(p, TagsColumn) + Step(p, HealthcheckEnabledColumn)
      + Step(p, HealthcheckUrlColumn) + Step(p, HealthcheckExpectedStatusColumn) + Step(p, PublicUrlColumn)
  {
    UnfoldFirstBlocks(p);
    UnfoldMiddleBlocks(p);
    UnfoldLastBlocks(p);
    assert UpdateOrder[..12] == UpdateOrder;
  }

  /** The blocks for name, description, ports and icon. */
  lemma UnfoldFirstBlocks(p: ServicePatch)
    ensures AssignmentsOver(p, UpdateOrder[..4]) ==
      []
      + Step(p, NameColumn)
      + Step(p, DescriptionColumn)
      + Step(p, PortsColumn)
      + Step(p, IconColumn)
  {
    UnfoldStep(p, 0);
    UnfoldStep(p, 1);
    UnfoldStep(p, 2);
    UnfoldStep(p, 3);
  }

  /** The blocks for image, color, protocol and tags. */
  lemma UnfoldMiddleBlocks(p: ServicePatch)
    ensures AssignmentsOver(p, UpdateOrder[..8]) ==
      AssignmentsOver(p, UpdateOrder[..4])
      + Step(p, ImageColumn)
      + Step(p, ColorColumn)
      + Step(p, ProtocolColumn)
      + Step(p, TagsColumn)
  {
    UnfoldStep(p, 4);
    UnfoldStep(p, 5);
    UnfoldStep(p, 6);
    UnfoldStep(p, 7);
  }

  /** The blocks for the health check fields and the public URL. */
  lemma UnfoldLastBlocks(p: ServicePatch)
    ensures AssignmentsOver(p, UpdateOrder[..12]) ==
      AssignmentsOver(p, UpdateOrder[..8])
      + Step(p, HealthcheckEnabledColumn)
      + Step(p, HealthcheckUrlColumn)
      + Step(p, HealthcheckExpectedStatusColumn)
      + Step(p, PublicUrlColumn)
  {
    UnfoldStep(p, 8);
    UnfoldStep(p, 9);
    UnfoldStep(p, 10);
    UnfoldStep(p, 11);
  }

  /** One more block of the fixed order appends its entry. */
  lemma UnfoldStep(p: ServicePatch, k: nat)
    requires k < |UpdateOrder|
    ensures AssignmentsOver(p, UpdateOrder[..k + 1]) == AssignmentsOver(p, UpdateOrder[..k]) + Step(p, UpdateOrder[k])
  {
    assert UpdateOrder[..k + 1] == UpdateOrder[..k] + [UpdateOrder[k]];
    AssignmentsOverSnoc(p, UpdateOrder[..k], UpdateOrder[k]);
  }

  /** `updateService`'s statement builder: one `column = ?` entry and one
      value per defined field, in field order, then the id when there is
      any entry. */
  method BuildServiceUpdate(id: string, p: ServicePatch) returns (updates: seq<string>, values: seq<SqlValue>)
    ensures updates == Placeholders(ServiceAssignments(p))
    ensures values == BoundValues(ServiceAssignments(p), id)
    ensures |updates| == 0 <==> p == EmptyPatch
  {
    updates, values := [], [];
    ghost var a: seq<Assignment> := [];
    updates, values, a := PushIfDefined(updates, values, a, p, NameColumn);
    updates, values, a := PushIfDefined(updates, values, a, p, DescriptionColumn);
    updates, values, a := PushIfDefined(updates, values, a, p, PortsColumn);
    updates, values, a := PushIfDefined(updates, values, a, p, IconColumn);
    updates, values, a := PushIfDefined(updates, values, a, p, ImageColumn);
    updates, values, a := PushIfDefined(updates, values, a, p, ColorColumn);
    updates, values, a := PushIfDefined(updates, values, a, p, ProtocolColumn);
    updates, values, a := PushIfDefined(updates, values, a, p, TagsColumn);
    updates, values, a := PushIfDefined(updates, values, a, p, HealthcheckEnabledColumn);
    updates, values, a := PushIfDefined(updates, values, a, p, HealthcheckUrlColumn);
    updates, values, a := PushIfDefined(updates, values, a, p, HealthcheckExpectedStatusColumn);
    updates, values, a := PushIfDefined(updates, values, a, p, PublicUrlColumn);
    ServiceAssignmentsUnfolded(p);
    if |updates| > 0 {
      values := values + [Text(id)];
    }
    EmptyPatchUpdatesNothing(Database.ServiceRow("", "", "", None, [], None, None, None, None, None, 0, None, None, None), p);
  }

  /** In the statement `updateService` runs, there are as many `?` marks
      as bound values: one per defined field, and the id. */
  lemma ServiceStatementWellFormed(p: ServicePatch, id: string)
    requires p != EmptyPatch
    ensures CountMarks(UpdateStatement("services", Placeholders(ServiceAssignments(p)))) ==
      |BoundValues(ServiceAssignments(p), id)|
  {
    var a := ServiceAssignments(p);
    EmptyPatchUpdatesNothing(Database.ServiceRow("", "", "", None, [], None, None, None, None, None, 0, None, None, None), p);
    AssignmentsOverEntries(p, UpdateOrder);
    forall i | 0 <= i < |a| ensures NoMarks(a[i].column) {
      assert a[i] in a;
      var c :| c in UpdateOrder && IsDefined(p, c) && a[i] == Assignment(ColumnName(c), PatchValue(p, c));
      ColumnNamesDistinct(c);
    }
    PlaceholderCount("services", a, id);
  }

  // ---- the table after each write ----

  /** The primary key of a services row. */
  function ServiceKey(row: ServiceRow): string {
    row.id
  }

  /** The table after `UPDATE services SET ... WHERE id = ?` for a patch. */
  function UpdatedRows(rows: seq<ServiceRow>, id: string, p: ServicePatch): (r: seq<ServiceRow>)
    ensures |r| == |rows|
    ensures forall i :: 0 <= i < |r| ==> r[i].id == rows[i].id && r[i].serverId == rows[i].serverId
  {
    seq(|rows|, i requires 0 <= i < |rows| => if rows[i].id == id then PatchedRow(rows[i], p) else rows[i])
  }

  lemma {:induction false} RowsOfServerAppend(rows: seq<ServiceRow>, row: ServiceRow, serverId: string)
    ensures RowsOfServer(rows + [row], serverId) ==
      RowsOfServer(rows, serverId) + (if row.serverId == serverId then [row] else [])
  {
    if rows == [] {
      assert rows + [row] == [row];
    } else {
      assert (rows + [row])[0] == rows[0];
      assert (rows + [row])[1..] == rows[1..] + [row];
      RowsOfServerAppend(rows[1..], row, serverId);
    }
  }

  /** After `createService`, the new service is found by its id as the
      normalised record, and listed last among its server's services. */
  lemma CreatedIsFound(rows: seq<ServiceRow>, id: string, serverId: string, d: ServiceDefinition)
    requires forall i :: 0 <= i < |rows| ==> rows[i].id != id
    ensures ServiceById(rows + [NewServiceRow(id, serverId, d)], id) == Some(Canonicalize(d))
    ensures ServicesOf(rows + [NewServiceRow(id, serverId, d)], serverId) ==
      ServicesOf(rows, serverId) + [ServiceWithId(id, Canonicalize(d))]
  {
    var row := NewServiceRow(id, serverId, d);
    ReadBackCreated(id, serverId, d);
    FindAppended(rows, row);
    ServicesOfAppend(rows, row);
  }

  /** A row appended under a fresh id is the one `FindService` returns. */
  lemma {:induction false} FindAppended(rows: seq<ServiceRow>, row: ServiceRow)
    requires forall i :: 0 <= i < |rows| ==> rows[i].id != row.id
    ensures FindService(rows + [row], row.id) == Some(row)
  {
    if rows == [] {
      assert rows + [row] == [row];
    } else {
      assert (rows + [row])[0] == rows[0];
      assert (rows + [row])[1..] == rows[1..] + [row];
      assert forall i :: 0 <= i < |rows[1..]| ==> rows[1..][i] == rows[i + 1];
      FindAppended(rows[1..], row);
    }
  }

  /** An appended row is listed last among its server's services. */
  lemma ServicesOfAppend(rows: seq<ServiceRow>, row: ServiceRow)
    ensures ServicesOf(rows + [row], row.serverId) ==
      ServicesOf(rows, row.serverId) + [ServiceWithId(row.id, ReadService(row))]
  {
    RowsOfServerAppend(rows, row, row.serverId);
  }

  lemma {:induction false} UpdatedRowsTail(rows: seq<ServiceRow>, id: string, p: ServicePatch)
    requires rows != []
    ensures UpdatedRows(rows, id, p)[1..] == UpdatedRows(rows[1..], id, p)
  {
  }

  /** After `updateService`, `getServiceById` gives the old record with the
      patch laid over it, normalised; an unknown id stays unknown. */
  lemma {:induction false} FoundAfterUpdate(rows: seq<ServiceRow>, id: string, p: ServicePatch)
    ensures ServiceById(UpdatedRows(rows, id, p), id) ==
      match ServiceById(rows, id)
      case None => None
      case Some(d) => Some(Canonicalize(Override(d, p)))
  {
    if rows != [] {
      var after := UpdatedRows(rows, id, p);
      if rows[0].id == id {
        ReadAfterUpdate(rows[0], p);
      } else {
        UpdatedRowsTail(rows, id, p);
        FoundAfterUpdate(rows[1..], id, p);
        assert FindService(after, id) == FindService(after[1..], id);
        assert FindService(rows, id) == FindService(rows[1..], id);
      }
    }
  }

  /** After `deleteService`, the id is not found any more, and every other
      service is still there. */
  lemma DeletedIsGone(rows: seq<ServiceRow>, id: string)
    ensures ServiceById(WithoutService(rows, id), id).None?
    ensures forall x :: x in rows && x.id != id ==> x in WithoutService(rows, id)
  {
    var r := WithoutService(rows, id);
    forall i | 0 <= i < |r| ensures r[i].id != id {
      assert r[i] in r;
    }
  }

  /** Deleting a service leaves every server's other services in the order
      they had. */
  lemma {:induction false} DeleteKeepsOrder(rows: seq<ServiceRow>, id: string, serverId: string)
    ensures RowsOfServer(WithoutService(rows, id), serverId) == WithoutService(RowsOfServer(rows, serverId), id)
  {
    if rows != [] {
      DeleteKeepsOrder(rows[1..], id, serverId);
      var rest := WithoutService(rows[1..], id);
      if rows[0].id != id {
        assert WithoutService(rows, id) == [rows[0]] + rest;
        assert ([rows[0]] + rest)[1..] == rest;
      }
      if rows[0].serverId == serverId {
        var kept := RowsOfServer(rows[1..], serverId);
        assert RowsOfServer(rows, serverId) == [rows[0]] + kept;
        assert ([rows[0]] + kept)[1..] == kept;
      }
    }
  }

  // ---- the functions of lib/db/services.ts on the store ----

  /** `getServicesByServerId(serverId)`. */
  method GetServicesByServerId(store: Store, serverId: string) returns (r: seq<ServiceWithId>)
    requires store.Valid()
    modifies store
    ensures store.Valid() && store.servers == old(store.servers) && store.services == old(store.services)
    ensures r == ServicesOf(store.services, serverId)
  {
    var _ := store.GetDatabase();
    r := ServicesOf(store.services, serverId);
  }

  /** `getServiceById(id)`. */
  method GetServiceById(store: Store, id: string) returns (r: Option<ServiceDefinition>)
    requires store.Valid()
    modifies store
    ensures store.Valid() && store.servers == old(store.servers) && store.services == old(store.services)
    ensures r == ServiceById(store.services, id)
  {
    var _ := store.GetDatabase();
    r := ServiceById(store.services, id);
  }

  /** `createService(serverId, service)`: `ok` is false where the INSERT
      throws — a column missing from the schema, a taken id (primary key),
      or no server with that id (foreign key). */
  method CreateService(store: Store, serverId: string, suffix: string, d: ServiceDefinition) returns (ok: bool)
    requires store.Valid()
    modifies store
    ensures store.Valid() && store.servers == old(store.servers)
    ensures ok <==>
      && ServiceColumns <= store.serviceColumns
      && (forall i :: 0 <= i < |old(store.services)| ==> old(store.services)[i].id != ServiceId(serverId, suffix))
      && serverId in ServerIds(store.servers)
    ensures store.services ==
      if ok then old(store.services) + [NewServiceRow(ServiceId(serverId, suffix), serverId, d)]
      else old(store.services)
  {
    var _ := store.GetDatabase();
    var id := ServiceId(serverId, suffix);
    if !(ServiceColumns <= store.serviceColumns) {
      return false;
    }
    if FindService(store.services, id).Some? {
      return false;
    }
    if !(exists i | 0 <= i < |store.servers| :: store.servers[i].id == serverId) {
      return false;
    }
    var row := NewServiceRow(id, serverId, d);
    AppendKeepsKeys(store.services, store.servers, row);
    store.services := store.services + [row];
    ok := true;
  }

  /** Inserting a row with a fresh id and a known server keeps both
      constraints. */
  lemma AppendKeepsKeys(rows: seq<ServiceRow>, servers: seq<ServerRow>, row: ServiceRow)
    requires ServiceKeys(rows)
    requires forall i :: 0 <= i < |rows| ==> rows[i].serverId in ServerIds(servers)
    requires forall i :: 0 <= i < |rows| ==> rows[i].id != row.id
    requires row.serverId in ServerIds(servers)
    ensures ServiceKeys(rows + [row])
    ensures forall i :: 0 <= i < |rows + [row]| ==> (rows + [row])[i].serverId in ServerIds(servers)
  {
    var after := rows + [row];
    assert forall i :: 0 <= i < |rows| ==> after[i] == rows[i];
  }

  /** The statement names only existing columns exactly when every
      defined field has its column in the schema. */
  lemma SchemaAcceptsUpdate(p: ServicePatch, columns: set<string>)
    ensures (forall i :: 0 <= i < |Placeholders(ServiceAssignments(p))| ==>
               ColumnOf(Placeholders(ServiceAssignments(p))[i]) in columns)
        <==> (forall c :: IsDefined(p, c) ==> ColumnName(c) in columns)
  {
    var a := ServiceAssignments(p);
    var updates := Placeholders(a);
    ServiceAssignmentsShape(p);
    AssignmentsOverEntries(p, UpdateOrder);
    forall i | 0 <= i < |updates| ensures ColumnOf(updates[i]) == a[i].column {
      ColumnOfPlaceholder(a[i].column);
    }
    if forall c :: IsDefined(p, c) ==> ColumnName(c) in columns {
      forall i | 0 <= i < |updates| ensures ColumnOf(updates[i]) in columns {
        assert a[i] in a;
        var c :| c in UpdateOrder && IsDefined(p, c) && a[i] == Assignment(ColumnName(c), PatchValue(p, c));
      }
    }
    if forall i :: 0 <= i < |updates| ==> ColumnOf(updates[i]) in columns {
      forall c | IsDefined(p, c) ensures ColumnName(c) in columns {
        var i :| 0 <= i < |a| && ColumnsOf(a)[i] == ColumnName(c);
      }
    }
  }

  /** Running the built statement on the table patches exactly the row
      with that id. */
  lemma ExecuteServiceUpdate(rows: seq<ServiceRow>, id: string, p: ServicePatch)
    requires p != EmptyPatch
    ensures ExecuteUpdate(rows, ServiceKey, SetServiceColumn,
      Placeholders(ServiceAssignments(p)), BoundValues(ServiceAssignments(p), id)) == Some(UpdatedRows(rows, id, p))
  {
    var a := ServiceAssignments(p);
    EmptyPatchUpdatesNothing(Database.ServiceRow("", "", "", None, [], None, None, None, None, None, 0, None, None, None), p);
    ExecuteBuiltUpdate(rows, ServiceKey, SetServiceColumn, a, id);
    var r := ExecuteUpdate(rows, ServiceKey, SetServiceColumn, Placeholders(a), BoundValues(a, id));
    forall i | 0 <= i < |rows| ensures r.value[i] == UpdatedRows(rows, id, p)[i] {
      UpdateMeansPatch(rows[i], p);
    }
    assert r.value == UpdatedRows(rows, id, p);
  }

  /** An update touches neither the ids nor the server references. */
  lemma UpdateKeepsKeys(rows: seq<ServiceRow>, servers: seq<ServerRow>, id: string, p: ServicePatch)
    requires ServiceKeys(rows)
    requires forall i :: 0 <= i < |rows| ==> rows[i].serverId in ServerIds(servers)
    ensures ServiceKeys(UpdatedRows(rows, id, p))
    ensures forall i :: 0 <= i < |rows| ==> UpdatedRows(rows, id, p)[i].serverId in ServerIds(servers)
  {
  }

  /** A patch with no field defined names no column and changes no row. */
  lemma EmptyUpdate(rows: seq<ServiceRow>, id: string, p: ServicePatch, columns: set<string>)
    requires ServiceAssignments(p) == []
    ensures forall c :: IsDefined(p, c) ==> ColumnName(c) in columns
    ensures UpdatedRows(rows, id, p) == rows
  {
    EmptyPatchUpdatesNothing(Database.ServiceRow("", "", "", None, [], None, None, None, None, None, 0, None, None, None), p);
    forall c ensures !IsDefined(p, c) {
      NothingDefined(c);
    }
    UnchangedByEmptyPatch(rows, id);
  }

  lemma NothingDefined(c: ServiceColumn)
    ensures !IsDefined(EmptyPatch, c)
  {
  }

  lemma UnchangedByEmptyPatch(rows: seq<ServiceRow>, id: string)
    ensures UpdatedRows(rows, id, EmptyPatch) == rows
  {
    forall i | 0 <= i < |rows| ensures UpdatedRows(rows, id, EmptyPatch)[i] == rows[i] {
      EmptyPatchUpdatesNothing(rows[i], EmptyPatch);
    }
  }

  /** `updateService(id, service)`: build the SET list, and run it when it
      is not empty. `ok` is false where the UPDATE throws: a named column
      missing from the schema. */
  method UpdateService(store: Store, id: string, p: ServicePatch) returns (ok: bool)
    requires store.Valid()
    modifies store
    ensures store.Valid() && store.servers == old(store.servers)
    ensures ok <==> forall c :: IsDefined(p, c) ==> ColumnName(c) in store.serviceColumns
    ensures store.services == if ok then UpdatedRows(old(store.services), id, p) else old(store.services)
  {
    var _ := store.GetDatabase();
    var updates, values := BuildServiceUpdate(id, p);
    var before := store.services;
    if |updates| == 0 {
      EmptyUpdate(before, id, p, store.serviceColumns);
      return true;
    }
    SchemaAcceptsUpdate(p, store.serviceColumns);
    if !(forall i | 0 <= i < |updates| :: ColumnOf(updates[i]) in store.serviceColumns) {
      return false;
    }
    ExecuteServiceUpdate(before, id, p);
    UpdateKeepsKeys(before, store.servers, id, p);
    var r := ExecuteUpdate(before, ServiceKey, SetServiceColumn, updates, values);
    store.services := r.value;
    ok := true;
  }

  /** `deleteService(id)`. */
  method DeleteService(store: Store, id: string)
    requires store.Valid()
    modifies store
    ensures store.Valid() && store.servers == old(store.servers)
    ensures store.services == WithoutService(old(store.services), id)
  {
    var _ := store.GetDatabase();
    var before := store.services;
    store.services := WithoutService(before, id);
    forall i | 0 <= i < |store.services| ensures store.services[i].serverId in ServerIds(store.servers) {
      assert store.services[i] in before;
    }
  }
}
