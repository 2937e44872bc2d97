# MyHostedHub core, modelled in Dafny

MyHostedHub is a home-lab dashboard. It keeps servers, and the services each
server runs, in a SQLite file. It shows them as cards that link to each
service and poll a health-check proxy. This project models the logic behind
that dashboard and proves properties of it:

- **Js** (`js.dfy`): the JavaScript semantics the code leans on. `undefined` and `null` are `None`. It models truthiness (`x || null`), `${n}` for integers, and `parseInt` on decimal text.
- **Models** (`models.dfy`): the `Service` and `Server` classes of `lib/models`, their constructors, `getUrl` and `getServiceUrl`.
- **Seed** (`seed.dfy`): the built-in seed list `serversData` of `lib/data/servers.ts` and its two lookups. The icon strings of that file are double-encoded UTF-8. The model keeps exactly the code points the file holds.
- **Health** (`health.dfy`): the `/api/healthcheck` proxy. It is a pure function of the query and an abstract fetch outcome: a status, or a thrown error with a name and message.
- **Database** (`database.dfy`): the `getDatabase`/`closeDatabase` singleton, and the column migration of the services table.
  - A `Store` object holds the handle, the schema (a set of column names) and both tables.
  - Tables are sequences in rowid order.
  - `Store.Valid` carries the primary keys and the foreign key from services to servers.
- **Sql** (`sql.dfy`): the `col = ?` SET lists that both update builders produce, the statement text, and what executing `UPDATE … SET … WHERE id = ?` does to a table.
- **ServiceStore** (`services.dfy`) and **ServerStore** (`servers.dfy`): every function of `lib/db/services.ts` and `lib/db/servers.ts`.
  - Each writer is a method on the `Store`.
  - Each is proved against a specification function on the rows: what a read returns, what a write leaves in the table.
- **ServicesRoute** and **ServersRoute** (`services_route.dfy`, `servers_route.dfy`): the four HTTP handlers of each API route. This covers required parameters, defaults, ids and error replies.
- **ServiceCard** (`service_card.dfy`): the decision logic of the service card.
  - What picture to show, and which URL to link to.
  - The health and public-URL status the card keeps; a `Card` object's methods update it.
  - Which indicator it draws from that status.

The main results:

- **Write/read round trip.** A service written and read back is its input with falsy optional values dropped and the protocol filled in. Name, ports and tags come back unchanged (`ReadBackCreated`, `CanonicalIsFixedPoint`).
- **What an update does.** The SQL that `updateService` builds and runs is the same as a field-wise patch of the row with that id: defined fields are replaced, and nothing else changes (`UpdateMeansPatch`, `ExecuteServiceUpdate`, `FoundAfterUpdate`). Fields are checked in a fixed column order, and `?` marks match the bound values one for one.
- **Grouping.** `getAllServers` returns one server per row, sorted by name, each with exactly its own services. It agrees with `getServerById`, except that `getServerById` drops `publicUrl`, as the source does.
- **Delete cascade.** `deleteServer` removes the server's services through the foreign key's `ON DELETE CASCADE`.
- **Migration.** It adds each missing column once, is idempotent, and on a fresh file always adds `healthcheck_enabled` and `public_url`.
- **Health verdict.** With an expected status `n`, healthy means exactly status `n`. Without one, it means the 2xx or 3xx classes of section 15 of RFC 9110. The card records that verdict end to end.

## Model

| member | source | states |
|---|---|---|
| Js.NonEmpty | lib/db/services.ts:45 | `s \|\| null` keeps a string exactly when it is non-empty, and maps every falsy string to null |
| Js.NonZero | lib/db/services.ts:54 | `n \|\| null` keeps a number exactly when it is non-zero |
| Js.ParseIntOfIntToString | app/api/healthcheck/route.ts:35 | `parseInt` reads back exactly the integer that `${n}` / `toString()` printed, negative ones included |
| Models.NewService | lib/models/Service.ts:30-43 | the constructor fills in protocol `http` when it is absent, keeps a given protocol, and copies every other field unchanged |
| Models.GetUrlShape | lib/models/Service.ts:38-47 | a constructed service's URL begins with `http://` or `https://` (`http://` exactly when the protocol is not https), and its trailing digits parse back to the port |
| Models.NewServer | lib/models/Server.ts:18-24 | id, name, host and description are copied; services keep their length and order, each wrapped by `new Service` |
| Models.GetServiceUrl | lib/models/Server.ts:26-28 | the result is the host, `:` and the port's digits, so it does not depend on the service argument |
| Seed.SeedIdsDistinct | lib/data/servers.ts:19-98 | no two seed servers share an id |
| Seed.GetServers | lib/data/servers.ts:100-102 | one constructed server per seed entry, in seed order |
| Seed.FindById | lib/data/servers.ts:105 | `find` returns the first entry with that id, or nothing exactly when no entry has it |
| Seed.GetServerById | lib/data/servers.ts:104-107 | undefined exactly when no seed entry has the id; otherwise a constructed seed server with that id |
| Seed.GetServerByIdAgrees | lib/data/servers.ts:100-107 | looking up the i-th seed server's id returns the i-th element of `getServers()` |
| Health.ClassOf | app/api/healthcheck/route.ts:36 | the status classes of section 15 of RFC 9110: 2xx Successful, 3xx Redirection |
| Health.VerdictWithExpected | app/api/healthcheck/route.ts:34-35 | with an expected status sent as the text of `n`, healthy holds exactly when the status is `n` |
| Health.HealthCheck | app/api/healthcheck/route.ts:4-59 | malformed request: 500 `Failed to perform healthcheck`; no or empty url: 400 `URL is required`; otherwise 200. A response gives healthy by the rule, the status, the url and the parsed expected status (null when absent). A thrown fetch gives an unhealthy answer with no status, and `Timeout` for an abort or else the error's message |
| Database.AddedColumnDefault | lib/db/database.ts:69-71 | only `healthcheck_enabled` is added with a default, 0 |
| Database.MigrateFromAddsOnlyListed | lib/db/database.ts:53-74 | the migration adds no column outside its list |
| Database.MigrateFromComplete | lib/db/database.ts:53-74 | when no ALTER fails, every listed column is present afterwards |
| Database.MigrateFromIdempotent | lib/db/database.ts:54-77 | migrating the migrated schema again changes nothing, even after a failed ALTER |
| Database.FirstOpenAddsColumns | lib/db/database.ts:32-74 | the freshly created table lacks `healthcheck_enabled` and `public_url`, and the first migration yields every column the code uses |
| Database.Store.AddColumnIfMissing | lib/db/database.ts:60-74 | adds the column only when missing, and reports an ALTER that throws |
| Database.Store.Migrate | lib/db/database.ts:53-77 | the schema after the block is the migration specification of the schema before it, stopping at the first ALTER that throws |
| Database.Store.GetDatabase | lib/db/database.ts:15-80 | returns the open handle unchanged if there is one; otherwise a fresh handle, tables created if missing, and the schema migrated; a failed migration still returns the handle |
| Database.Store.CloseDatabase | lib/db/database.ts:82-87 | afterwards there is no handle |
| Database.HandleLifecycle | lib/db/database.ts:15-87 | two opens without a close give the same handle; after a close the next open gives a new one; closing twice is harmless |
| Sql.TextOrNull | lib/db/services.ts:73 | the bound value is NULL exactly for the empty string, else the text |
| Sql.BoundValues | lib/db/services.ts:116-119 | with any assignment, the values are one per assignment and then the id last; with none, nothing is bound |
| Sql.PlaceholderCount | lib/db/services.ts:116-119 | the UPDATE statement has exactly as many `?` marks as bound values |
| Sql.ExecuteUpdate | lib/db/services.ts:118-120 | positional binding succeeds exactly when there is one value more than SET entries, and keeps the table's length |
| Sql.ApplyAssignmentsAppend | lib/db/services.ts:67-114 | applying two SET lists one after the other is applying their concatenation |
| Sql.ApplySetOfAssignments | lib/db/services.ts:118-120 | binding the i-th value to the i-th `col = ?` applies the builder's assignments in order |
| Sql.ExecuteBuiltUpdate | lib/db/services.ts:116-120 | running a built statement applies the assignments to the row with that id and leaves every other row as it was |
| ServiceStore.ReadService | lib/db/services.ts:14-28 | a read record is canonical; name, ports and tags are copied; protocol defaults to http; flag, description and publicUrl are defined exactly when the column is truthy |
| ServiceStore.ServiceId | lib/db/services.ts:36 | a created id begins with the server id and `-` |
| ServiceStore.NewServiceRow | lib/db/services.ts:38-56 | the inserted row stores no empty text and no 0 status, a protocol (given or http), and the flag as 1 exactly for `true`, else 0 |
| ServiceStore.CanonicalIsFixedPoint | lib/db/services.ts:14-28 | canonical records are exactly those that normalisation leaves unchanged |
| ServiceStore.ReadBackCreated | lib/db/services.ts:38-56 | reading back a created service gives its normalised record, and a canonical one unchanged |
| ServiceStore.RowsOfServer | lib/db/services.ts:10-12 | the selected rows are exactly the rows with that server id |
| ServiceStore.ServicesOfMembers | lib/db/services.ts:8-29 | a service is listed for a server exactly when its row has that server id, and every listed service comes from such a row |
| ServiceStore.ServiceById | lib/db/services.ts:129-151 | undefined exactly when no row has the id; else the read of a row with that id |
| ServiceStore.WithoutService | lib/db/services.ts:124-127 | the rows left are exactly those with another id |
| ServiceStore.ColumnNamed | lib/db/services.ts:67-114 | recovers the column from its name |
| ServiceStore.ServiceAssignmentsShape | lib/db/services.ts:64-114 | a `col = ?` entry is built exactly for each defined field, in the fixed column order, naming only table columns |
| ServiceStore.PatchedRow | lib/db/services.ts:59-122 | an update keeps the row's id and server id |
| ServiceStore.UpdateMeansPatch | lib/db/services.ts:67-120 | executing the built SET list on a row is the field-wise patch: each defined field replaced (empty text and 0 as NULL, the flag as 1/0), every other column unchanged |
| ServiceStore.ReadAfterUpdate | lib/db/services.ts:59-151 | reading a patched row gives the old record overridden by the defined fields, normalised |
| ServiceStore.EmptyPatchUpdatesNothing | lib/db/services.ts:116 | the SET list is empty exactly when no field is defined, and then the row is unchanged |
| ServiceStore.AssignmentsOverSnoc | lib/db/services.ts:67-114 | checking one more field appends at most that field's entry |
| ServiceStore.ServiceAssignmentsUnfolded | lib/db/services.ts:67-114 | the SET list is the twelve blocks' entries concatenated in the order the source checks the fields |
| ServiceStore.PushIfDefined | lib/db/services.ts:67-70 | one `if (field !== undefined)` block pushes that field's entry and value, or nothing |
| ServiceStore.BuildServiceUpdate | lib/db/services.ts:63-117 | the pushed `updates` and `values` are the placeholders and bound values of the specified SET list; nothing is pushed exactly when no field is defined |
| ServiceStore.ServiceStatementWellFormed | lib/db/services.ts:116-119 | the statement's `?` marks match the bound values |
| ServiceStore.UpdatedRows | lib/db/services.ts:118 | every row keeps its id and server id |
| ServiceStore.AppendKeepsKeys | lib/db/services.ts:38-56 | inserting a fresh id under an existing server keeps the primary key and the references |
| ServiceStore.CreatedIsFound | lib/db/services.ts:31-56 | after an insert the new id is found as the normalised record, and the server's list gains it at the end |
| ServiceStore.FoundAfterUpdate | lib/db/services.ts:59-151 | after an update the service reads as its old record overridden by the patch, normalised |
| ServiceStore.DeleteKeepsOrder | lib/db/services.ts:124-127 | deleting a service leaves each server's other services in their table order |
| ServiceStore.DeletedIsGone | lib/db/services.ts:124-135 | after a delete the id is not found |
| ServiceStore.SchemaAcceptsUpdate | lib/db/services.ts:118 | the statement names only existing columns exactly when every defined field's column exists |
| ServiceStore.ExecuteServiceUpdate | lib/db/services.ts:116-120 | running the built statement patches exactly the row with that id |
| ServiceStore.GetServicesByServerId | lib/db/services.ts:8-29 | returns the server's services as read from the table; the tables are unchanged |
| ServiceStore.GetServiceById | lib/db/services.ts:129-151 | returns the read record of that id, or undefined |
| ServiceStore.CreateService | lib/db/services.ts:31-57 | the insert succeeds exactly when every column exists, the id is free and the server exists; then the row is appended, else nothing changes |
| ServiceStore.UpdateService | lib/db/services.ts:59-122 | succeeds exactly when every defined field's column exists; then the table is the patched table, else unchanged |
| ServiceStore.DeleteService | lib/db/services.ts:124-127 | the table loses the rows with that id |
| ServerStore.NameLeqTransitive | lib/db/servers.ts:7 | the BINARY collation order on names is transitive |
| ServerStore.InsertByName | lib/db/servers.ts:7 | inserting into a name-sorted list keeps it sorted and is a permutation |
| ServerStore.OrderByName | lib/db/servers.ts:7 | `ORDER BY name` returns a permutation of the rows, sorted by name |
| ServerStore.ServiceRecords | lib/db/servers.ts:11-26 | a server's services are the reads of exactly its service rows, in table order |
| ServerStore.ReadServiceWithoutPublicUrl | lib/db/servers.ts:50-62 | `getServerById`'s mapping is the common read with `publicUrl` dropped |
| ServerStore.ServerOf | lib/db/servers.ts:28-34 | the server keeps the row's id, name and host, and holds the given services; an empty description becomes undefined |
| ServerStore.ServerList | lib/db/servers.ts:5-36 | one server per row, ordered by name; each listed server is built from a table row (its id, name, host and description) with exactly that row's services |
| ServerStore.FindServer | lib/db/servers.ts:40 | nothing exactly when no row has the id; otherwise a row of the table with that id |
| ServerStore.LookupServer | lib/db/servers.ts:38-71 | undefined exactly for an unknown id; otherwise the server built from the row with that id, with its services without `publicUrl` |
| ServerStore.DropPublicUrls | lib/db/servers.ts:50-62 | every service loses its `publicUrl` and keeps every other field |
| ServerStore.ListAndLookupAgree | lib/db/servers.ts:5-71 | every listed server is found by its id, identical except that the lookup's services have no `publicUrl` |
| ServerStore.ServerListIds | lib/db/servers.ts:5-36 | the list's ids are exactly the table's ids |
| ServerStore.PatchedServerRow | lib/db/servers.ts:82-111 | an update keeps the row's id |
| ServerStore.ServerAssignmentsShape | lib/db/servers.ts:87-101 | an entry exactly for each defined field, in the order name, host, description; none exactly for the empty patch |
| ServerStore.ServerUpdateMeansPatch | lib/db/servers.ts:90-108 | executing the SET list replaces the defined fields, an empty description as NULL, and keeps the rest |
| ServerStore.BuildServerUpdate | lib/db/servers.ts:86-101 | the pushed `updates` and `values` are the placeholders and bound values of the specified SET list |
| ServerStore.UpdatedServerRows | lib/db/servers.ts:105 | every row keeps its id |
| ServerStore.UpdatedServerIds | lib/db/servers.ts:82-111 | an update keeps the set of server ids, and one with an unknown id changes nothing |
| ServerStore.ExecuteServerUpdate | lib/db/servers.ts:103-108 | running the built statement patches exactly the row with that id |
| ServerStore.ServerStatementWellFormed | lib/db/servers.ts:103-107 | the statement's `?` marks match the bound values |
| ServerStore.WithoutServer | lib/db/servers.ts:113-116 | the rows left are exactly those with another id |
| ServerStore.WithoutServicesOf | lib/db/database.ts:45 | the cascade leaves exactly the services of other servers |
| ServerStore.CascadeKeepsOthers | lib/db/database.ts:45 | the cascade leaves every other server's services unchanged and in order |
| ServerStore.DeleteKeepsLookups | lib/db/servers.ts:113-116 | after deleting a server, every other id finds the same row as before |
| ServerStore.DeleteServerCascades | lib/db/servers.ts:113-116 | after a delete the server is not found and has no services; every other server and service stays |
| ServerStore.ServerIdsAppend | lib/db/servers.ts:75-77 | an insert adds exactly the new id to the table's ids |
| ServerStore.LookupCreated | lib/db/servers.ts:73-80 | a server just inserted reads back with its row's fields and, by the foreign key, no services |
| ServerStore.GetAllServers | lib/db/servers.ts:5-36 | returns the specified list; the tables are unchanged |
| ServerStore.GetServerById | lib/db/servers.ts:38-71 | returns the specified lookup; the tables are unchanged |
| ServerStore.ServerAppendKeepsKeys | lib/db/servers.ts:73-80 | inserting a server with a fresh id keeps the primary key and every service's reference |
| ServerStore.CreateServer | lib/db/servers.ts:73-80 | succeeds exactly when the id is free; then the row is appended and the server returned with no services |
| ServerStore.UpdateServer | lib/db/servers.ts:82-111 | the table becomes the patched table, and the result is the lookup of the id afterwards |
| ServerStore.DeleteServer | lib/db/servers.ts:113-116 | the server row goes and its services go with it; the foreign key still holds |
| ServicesRoute.CreateArguments | app/api/services/route.ts:34-48 | POST passes the body's fields, with ports `[]`, tags `[]` and protocol `http` when absent; a missing server id or name makes the insert fail |
| ServicesRoute.PostDefaultsReadBack | app/api/services/route.ts:35-48 | a service created by POST reads back with the body's name, and with no ports, no tags and http when those were absent |
| ServicesRoute.UpdateArguments | app/api/services/route.ts:62-75 | PUT's patch is empty exactly when the body has no field |
| ServicesRoute.PutLeavesAbsentFields | app/api/services/route.ts:62-75 | running PUT's statement leaves every column whose field the body omits, and sets the ones it sends |
| ServicesRoute.Get | app/api/services/route.ts:9-30 | 400 `Server ID is required` for a missing or empty serverId, else 200 with that server's services |
| ServicesRoute.Post | app/api/services/route.ts:32-57 | 201 `{success: true}` exactly when the insert succeeds, else 500 `Failed to create service` with the table unchanged |
| ServicesRoute.Put | app/api/services/route.ts:59-84 | 200 exactly when the body parses and every sent field's column exists, else 500 `Failed to update service`; the row with the body's id is patched |
| ServicesRoute.Delete | app/api/services/route.ts:86-105 | 400 `Service ID is required` for a missing or empty id, else the row goes and 200 |
| ServersRoute.PlainServer | app/api/servers/route.ts:13-32 | the plain copy keeps the server's four fields and each service's twelve fields |
| ServersRoute.PlainServerRoundTrip | app/api/servers/route.ts:13-32 | constructing a `Server` from the plain copy gives back the original |
| ServersRoute.PlainServers | app/api/servers/route.ts:13 | one copy per server, in order |
| ServersRoute.NewServerId | app/api/servers/route.ts:47 | the body's id when truthy, else `server-` followed by the clock digits |
| ServersRoute.GeneratedIdHasTimestamp | app/api/servers/route.ts:47 | a generated id's suffix parses back to the clock reading |
| ServersRoute.Get | app/api/servers/route.ts:9-41 | 200 with the plain copies of the ordered server list |
| ServersRoute.Post | app/api/servers/route.ts:43-60 | 201 with the created server exactly when the body has name and host and the id is free, else 500 `Failed to create server` |
| ServersRoute.Put | app/api/servers/route.ts:62-78 | 200 with the re-read server when a row has the body's id, the fields the body omits kept; an unparsable body, a missing id or an unknown id (whose `undefined` cannot be serialised) gives 500 `Failed to update server` with the tables unchanged |
| ServersRoute.Delete | app/api/servers/route.ts:80-99 | 400 `Server ID is required` for a missing or empty id, else the server and its services go and 200 |
| ServiceCard.IsUrl | app/components/ServiceCard.tsx:39-47 | a falsy string is never a URL |
| ServiceCard.HttpUrlIsUrl | app/components/ServiceCard.tsx:39-47 | under the scheme-prefix approximation of `new URL` (see Left out), every `http://` or `https://` string counts as a URL |
| ServiceCard.GetDisplayContent | app/components/ServiceCard.tsx:50-59 | an image exactly when there is an image field or a URL icon and no load error, the image field first; otherwise the icon as text when it is not a URL, else the plug |
| ServiceCard.DisplayedTextIsNotUrl | app/components/ServiceCard.tsx:53-58 | text shown in place of a picture is never a URL and never empty |
| ServiceCard.ServiceUrl | app/components/ServiceCard.tsx:23-25 | with a port, the URL is `getUrl` of the constructed service at the first port; without one, it ends in `:undefined` |
| ServiceCard.PrimaryUrl | app/components/ServiceCard.tsx:26 | the public URL when set, otherwise the service URL |
| ServiceCard.PrimaryUrlFallsBack | app/components/ServiceCard.tsx:23-26 | without a public URL, the link is a URL of the service's scheme whose trailing digits are the first port |
| ServiceCard.HealthQuery | app/components/ServiceCard.tsx:63-75 | no request without a health-check URL; `expectedStatus` is sent exactly when that field is truthy |
| ServiceCard.HealthOf | app/components/ServiceCard.tsx:76-87 | stores the proxy's healthy and status; a request failure stores unhealthy with no status |
| ServiceCard.CardHealthVerdict | app/components/ServiceCard.tsx:63-88 | end to end through the proxy, the card records healthy exactly for status `n` when `n` is expected, else for 200-399; an unreachable service is recorded unhealthy |
| ServiceCard.HealthIndicator | app/components/ServiceCard.tsx:135-165 | drawn only with checks enabled and a URL set; checking shows over the last result; good and bad follow healthy true and false |
| ServiceCard.PublicUrlIndicator | app/components/ServiceCard.tsx:167-236 | drawn only with a public URL; checking first; good and bad follow available |
| ServiceCard.Card.BeginHealthCheck | app/components/ServiceCard.tsx:63-75 | nothing without a URL; otherwise checking is set and the query returned; the rest of the state is unchanged |
| ServiceCard.Card.EndHealthCheck | app/components/ServiceCard.tsx:76-88 | healthy and status from the answer, checking false; the rest unchanged |
| ServiceCard.Card.BeginPublicUrlCheck | app/components/ServiceCard.tsx:91-100 | nothing without a public URL; otherwise checking is set and the URL sent without expected status |
| ServiceCard.Card.EndPublicUrlCheck | app/components/ServiceCard.tsx:101-111 | available from the answer, false on failure; checking false |
| ServiceCard.Card.ImageFailed | app/components/ServiceCard.tsx:260-263 | sets the image error and nothing else |
| ServiceCard.HealthCheckRound | app/components/ServiceCard.tsx:63-146 | on a card with checks enabled, the indicator shows checking while a check runs, then good or bad as the proxy answered |

## Left out

- The outbound `fetch`, its 5-second abort timer and the TLS override of the health-check route are not modelled. They are network I/O and timers; the fetch is an input outcome.
- better-sqlite3 itself is left out. SQL is modelled only as far as the statements the code runs. The WAL pragma, the index and the data directory are not modelled.
- `JSON.stringify`/`JSON.parse` of ports and tags are the identity on sequences. JSON `null` values in request bodies are not distinguished from absent fields.
- Ports are `nat`. JavaScript numbers (fractions, NaN) are not modelled.
- Expected statuses are integers.
- ServiceCard.IsUrl: `new URL` is approximated by "opens with a scheme and a colon". The WHATWG parser's further checks (a host for special schemes, forbidden characters) are not modelled.
- Js.ParseInt: only an optional sign and decimal digits. Leading whitespace, `0x` prefixes and partial numbers beyond the digit run are not modelled.
- Ids from `Date.now()` and `Math.random()` are inputs, the `suffix` of a service id and `now` of a server id. Collisions with an existing id are modelled as the insert failing.
- React rendering, class names, the 30-second polling intervals, `useEffect`, `window.open` and `console.error` are not modelled. The indicator titles and the port badges are rendering too.
- app/page.tsx, app/servers/page.tsx, app/servers/[id]/services/page.tsx and app/components/ServerCard.tsx are not part of this model. They are pure UI over the routes.
- Failures of a read (`Failed to fetch services`, `Failed to fetch servers`, `Failed to delete …`) cannot happen in the model: its reads and deletes never throw. Only inserts and updates can fail, on the schema, a key or a NOT NULL column.
- ServerStore.OrderByName: rows with equal names come out in the order of the insertion sort. SQLite leaves that order unspecified.
- ServiceStore.ReadService: a column missing from the schema, after a failed migration, is not read as undefined. Reads assume every column exists.
- ServerStore.UpdateServer: the `!` on the re-read server has no run-time effect, so an unknown id gives `None` (`undefined`); the route's failing `NextResponse.json(undefined)` is modelled as its 500 reply, not as the thrown TypeError.
