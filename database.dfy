// The SQLite store of lib/db/database.ts: the two tables, the schema of the
// services table as a set of column names, and the module-level connection
// handle that `getDatabase` opens lazily and `closeDatabase` clears. Tables are
// sequences in rowid order (the order SQLite returns for an unordered scan);
// the primary key and the foreign key from services to servers are invariants.
module Database {
  import opened Js
  import opened Models

  datatype ServerRow = ServerRow(id: string, name: string, host: string, description: Option<string>)

  /** A row of the services table; `None` is SQL NULL. `ports` and `tags`
      hold the JSON arrays the code stores as text. */
  datatype ServiceRow = ServiceRow(
    id: string,
    serverId: string,
    name: string,
    description: Option<string>,
    ports: seq<nat>,
    icon: Option<string>,
    image: Option<string>,
    color: Option<string>,
    protocol: Option<Protocol>,
    tags: Option<seq<string>>,
    healthcheckEnabled: int,
    healthcheckUrl: Option<string>,
    healthcheckExpectedStatus: Option<int>,
    publicUrl: Option<string>)

  /** Columns of the services table as `CREATE TABLE IF NOT EXISTS` makes it. */
  const BaseColumns: set<string> := {
    "id", "server_id", "name", "description", "ports", "icon", "image", "color",
    "protocol", "tags", "healthcheck_url", "healthcheck_expected_status" }

  /** The columns the migration checks for, in the order it checks them. */
  const MigrationColumns: seq<string> := [
    "image", "healthcheck_url", "healthcheck_expected_status", "healthcheck_enabled", "public_url" ]

  /** Every column the code reads and writes. */
  const ServiceColumns: set<string> := BaseColumns + {"healthcheck_enabled", "public_url"}

  /** The value a migration gives existing rows in an added column. */
  function AddedColumnDefault(column: string): (d: Option<int>)
    ensures d.Some? <==> column == "healthcheck_enabled"
  {
    if column == "healthcheck_enabled" then Some(0) else None
  }

  /** The migration as a specification: walk the column list, add each
      missing column, and stop at the first ALTER that throws (the error is
      swallowed by the caller). */
  function MigrateFrom(columns: set<string>, failing: set<string>, steps: seq<string>): (r: set<string>)
    ensures columns <= r
    decreases steps
  {
    if steps == [] then columns
    else if steps[0] in columns then MigrateFrom(columns, failing, steps[1..])
    else if steps[0] in failing then columns
    else MigrateFrom(columns + {steps[0]}, failing, steps[1..])
  }

  /** One step of the specification, unfolded. */
  lemma MigrateStep(columns: set<string>, failing: set<string>, steps: seq<string>)
    requires steps != []
    ensures MigrateFrom(columns, failing, steps) ==
      if steps[0] in columns then MigrateFrom(columns, failing, steps[1..])
      else if steps[0] in failing then columns
      else MigrateFrom(columns + {steps[0]}, failing, steps[1..])
  {
  }

  function Migrated(columns: set<string>, failing: set<string>): set<string> {
    MigrateFrom(columns, failing, MigrationColumns)
  }

  /** The migration adds only columns from its list. */
  lemma {:induction false} MigrateFromAddsOnlyListed(columns: set<string>, failing: set<string>, steps: seq<string>)
    ensures forall c :: c in MigrateFrom(columns, failing, steps) ==> c in columns || c in steps
    decreases steps
  {
    if steps != [] {
      if steps[0] in columns {
        MigrateFromAddsOnlyListed(columns, failing, steps[1..]);
      } else if steps[0] !in failing {
        MigrateFromAddsOnlyListed(columns + {steps[0]}, failing, steps[1..]);
      }
    }
  }

  /** When no ALTER fails, every listed column ends up present. */
  lemma {:induction false} MigrateFromComplete(columns: set<string>, failing: set<string>, steps: seq<string>)
    requires forall i :: 0 <= i < |steps| ==> steps[i] !in failing
    ensures forall i :: 0 <= i < |steps| ==> steps[i] in MigrateFrom(columns, failing, steps)
    decreases steps
  {
    if steps != [] {
      var rest := steps[1..];
      if steps[0] in columns {
        MigrateFromComplete(columns, failing, rest);
      } else {
        MigrateFromComplete(columns + {steps[0]}, failing, rest);
      }
    }
  }

  /** Running the migration on its own result changes nothing, whether or
      not an ALTER failed the first time. */
  lemma {:induction false} MigrateFromIdempotent(columns: set<string>, failing: set<string>, steps: seq<string>)
    ensures MigrateFrom(MigrateFrom(columns, failing, steps), failing, steps) == MigrateFrom(columns, failing, steps)
    decreases steps
  {
    if steps != [] {
      var rest := steps[1..];
      var r := MigrateFrom(columns, failing, steps);
      if steps[0] in columns {
        MigrateFromIdempotent(columns, failing, rest);
      } else if steps[0] in failing {
        assert r == columns;
      } else {
        MigrateFromIdempotent(columns + {steps[0]}, failing, rest);
      }
    }
  }

  /** A fresh schema lacks exactly two of the checked columns, so the first
      open of a new file adds them, and then has every column the code uses. */
  lemma FirstOpenAddsColumns()
    ensures "healthcheck_enabled" !in BaseColumns && "public_url" !in BaseColumns
    ensures Migrated(BaseColumns, {}) == ServiceColumns
  {
    var r := Migrated(BaseColumns, {});
    MigrateFromComplete(BaseColumns, {}, MigrationColumns);
    MigrateFromAddsOnlyListed(BaseColumns, {}, MigrationColumns);
    assert MigrationColumns[3] in r && MigrationColumns[4] in r;
    assert forall c :: c in r ==> c in BaseColumns || c in MigrationColumns;
  }

  ghost function ServerIds(rows: seq<ServerRow>): set<string> {
    set i | 0 <= i < |rows| :: rows[i].id
  }

  ghost predicate ServerKeys(rows: seq<ServerRow>) {
    forall i, j :: 0 <= i < j < |rows| ==> rows[i].id != rows[j].id
  }

  ghost predicate ServiceKeys(rows: seq<ServiceRow>) {
    forall i, j :: 0 <= i < j < |rows| ==> rows[i].id != rows[j].id
  }

  /** A better-sqlite3 connection object. */
  class Handle {
    constructor () {}
  }

  /** The database file together with the module-level `db` variable. */
  class Store {
    var db: Handle?
    var tablesExist: bool
    var serviceColumns: set<string>
    var servers: seq<ServerRow>
    var services: seq<ServiceRow>
    /** Columns whose ALTER TABLE throws in this environment. */
    const failingAlters: set<string>

    ghost predicate Valid()
      reads this
    {
      && ServerKeys(servers)
      && ServiceKeys(services)
      && (forall i :: 0 <= i < |services| ==> services[i].serverId in ServerIds(servers))
      && (!tablesExist ==> servers == [] && services == [] && serviceColumns == {})
      && (db != null ==> tablesExist)
    }

    /** The state at module load: no handle yet. `existingColumns` is the
        schema of a services table left by an earlier version, if any. */
    constructor (existingColumns: Option<set<string>>, failingAlters: set<string>)
      ensures Valid() && db == null
      ensures tablesExist == existingColumns.Some?
      ensures serviceColumns == existingColumns.GetOr({})
      ensures servers == [] && services == [] && this.failingAlters == failingAlters
    {
      db := null;
      tablesExist := existingColumns.Some?;
      serviceColumns := existingColumns.GetOr({});
      servers, services := [], [];
      this.failingAlters := failingAlters;
    }

    /** One `if (!hasX) db.exec("ALTER TABLE services ADD COLUMN x")`;
        `ok` is false when the ALTER threw. */
    method AddColumnIfMissing(column: string) returns (ok: bool)
      modifies this`serviceColumns
      ensures ok == (column in old(serviceColumns) || column !in failingAlters)
      ensures serviceColumns ==
        if column in old(serviceColumns) || !ok then old(serviceColumns) else old(serviceColumns) + {column}
    {
      if column in serviceColumns {
        ok := true;
      } else if column in failingAlters {
        ok := false;
      } else {
        serviceColumns := serviceColumns + {column};
        ok := true;
      }
    }

    /** The migration block of `getDatabase`: check each column and add it
        when missing; the first ALTER that throws ends the block. */
    method Migrate()
      modifies this`serviceColumns
      ensures serviceColumns == Migrated(old(serviceColumns), failingAlters)
    {
      ghost var goal := Migrated(serviceColumns, failingAlters);
      MigrateStep(serviceColumns, failingAlters, MigrationColumns[0..]);
      var ok0 := AddColumnIfMissing("image");
      if !ok0 { return; }
      assert goal == MigrateFrom(serviceColumns, failingAlters, MigrationColumns[1..]);
      MigrateStep(serviceColumns, failingAlters, MigrationColumns[1..]);
      var ok1 := AddColumnIfMissing("healthcheck_url");
      if !ok1 { return; }
      assert goal == MigrateFrom(serviceColumns, failingAlters, MigrationColumns[2..]);
      MigrateStep(serviceColumns, failingAlters, MigrationColumns[2..]);
      var ok2 := AddColumnIfMissing("healthcheck_expected_status");
      if !ok2 { return; }
      assert goal == MigrateFrom(serviceColumns, failingAlters, MigrationColumns[3..]);
      MigrateStep(serviceColumns, failingAlters, MigrationColumns[3..]);
      var ok3 := AddColumnIfMissing("healthcheck_enabled");
      if !ok3 { return; }
      assert goal == MigrateFrom(serviceColumns, failingAlters, MigrationColumns[4..]);
      MigrateStep(serviceColumns, failingAlters, MigrationColumns[4..]);
      var ok4 := AddColumnIfMissing("public_url");
      if !ok4 { return; }
      assert goal == MigrateFrom(serviceColumns, failingAlters, MigrationColumns[5..]);
    }

    /** `getDatabase()`: the open handle if there is one; otherwise open the
        file, create the tables if they are missing, migrate, and keep the
        new handle. A failed migration does not stop the handle's return. */
    method GetDatabase() returns (h: Handle)
      requires Valid()
      modifies this
      ensures Valid() && db == h && tablesExist
      ensures servers == old(servers) && services == old(services)
      ensures old(db) != null ==> h == old(db) && serviceColumns == old(serviceColumns)
      ensures old(db) == null ==> fresh(h)
      ensures old(db) == null ==>
        serviceColumns == Migrated(if old(tablesExist) then old(serviceColumns) else BaseColumns, failingAlters)
    {
      if db != null {
        return db;
      }
      h := new Handle();
      db := h;
      if !tablesExist {
        tablesExist := true;
        serviceColumns := BaseColumns;
      }
      Migrate();
    }

    /** `closeDatabase()`: close and forget the handle, if there is one. */
    method CloseDatabase()
      modifies this`db
      ensures db == null
    {
      if db != null {
        db := null;
      }
    }
  }

  /** Two calls of `getDatabase` with no close between them return the same
      handle, and a close makes the next call open a fresh one. */
  method HandleLifecycle(store: Store) returns (a: Handle, b: Handle, c: Handle)
    requires store.Valid()
    modifies store
    ensures a == b
    ensures fresh(c) && c != a
    ensures store.Valid() && store.db == null
  {
    a := store.GetDatabase();
    b := store.GetDatabase();
    store.CloseDatabase();
    store.CloseDatabase();
    c := store.GetDatabase();
    store.CloseDatabase();
  }
}
