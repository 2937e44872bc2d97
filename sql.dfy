// The statement shape that lib/db/services.ts and lib/db/servers.ts build for
// partial updates — `UPDATE t SET c1 = ?, c2 = ? WHERE id = ?` with the values
// bound by position — and what executing it does to a table.
module Sql {
  import opened Js

  /** A bound parameter. `PortsJson`/`TagsJson` are the JSON text the code
      stores for its two array columns, kept as the arrays themselves. */
  datatype SqlValue = Null | Text(text: string) | Integer(number: int) | PortsJson(ports: seq<nat>) | TagsJson(tags: seq<string>)

  /** `s || null` as a bound value. */
  function TextOrNull(s: string): (v: SqlValue)
    ensures v == Null <==> s == ""
    ensures v != Null ==> v == Text(s)
  {
    if s == "" then Null else Text(s)
  }

  /** One `column = ?` entry together with the value pushed for it. */
  datatype Assignment = Assignment(column: string, value: SqlValue)

  function Placeholder(column: string): string {
    column + " = ?"
  }

  function Placeholders(a: seq<Assignment>): (r: seq<string>)
    ensures |r| == |a|
    ensures forall i :: 0 <= i < |a| ==> r[i] == Placeholder(a[i].column)
  {
    seq(|a|, i requires 0 <= i < |a| => Placeholder(a[i].column))
  }

  /** The columns a SET list names, in order. */
  function ColumnsOf(a: seq<Assignment>): (r: seq<string>)
    ensures |r| == |a|
    ensures forall i :: 0 <= i < |a| ==> r[i] == a[i].column
  {
    seq(|a|, i requires 0 <= i < |a| => a[i].column)
  }

  function ValuesOf(a: seq<Assignment>): (r: seq<SqlValue>)
    ensures |r| == |a|
    ensures forall i :: 0 <= i < |a| ==> r[i] == a[i].value
  {
    seq(|a|, i requires 0 <= i < |a| => a[i].value)
  }

  lemma PlaceholdersAppend(a: seq<Assignment>, b: seq<Assignment>)
    ensures Placeholders(a + b) == Placeholders(a) + Placeholders(b)
    ensures ValuesOf(a + b) == ValuesOf(a) + ValuesOf(b)
    ensures ColumnsOf(a + b) == ColumnsOf(a) + ColumnsOf(b)
  {
  }

  /** The bound values: one per assignment, then the row id, or nothing at
      all when there is no assignment (no statement runs). */
  function BoundValues(a: seq<Assignment>, id: string): (r: seq<SqlValue>)
    ensures a == [] ==> r == []
    ensures a != [] ==> |r| == |a| + 1 && r[|a|] == Text(id) && r[..|a|] == ValuesOf(a)
  {
    if a == [] then [] else ValuesOf(a) + [Text(id)]
  }

  function Join(parts: seq<string>, sep: string): string {
    if |parts| == 0 then ""
    else if |parts| == 1 then parts[0]
    else parts[0] + sep + Join(parts[1..], sep)
  }

  function UpdateStatement(table: string, updates: seq<string>): string {
    "UPDATE " + table + " SET " + Join(updates, ", ") + " WHERE id = " + "?"
  }

  function CountMarks(s: string): nat {
    if s == [] then 0 else (if s[0] == '?' then 1 else 0) + CountMarks(s[1..])
  }

  lemma {:induction false} CountMarksAppend(s: string, t: string)
    ensures CountMarks(s + t) == CountMarks(s) + CountMarks(t)
  {
    if s != [] {
      assert (s + t)[0] == s[0] && (s + t)[1..] == s[1..] + t;
      CountMarksAppend(s[1..], t);
    } else {
      assert s + t == t;
    }
  }

  predicate NoMarks(s: string) {
    forall i :: 0 <= i < |s| ==> s[i] != '?'
  }

  lemma {:induction false} CountMarksNone(s: string)
    requires NoMarks(s)
    ensures CountMarks(s) == 0
  {
    if s != [] {
      CountMarksNone(s[1..]);
    }
  }

  lemma {:induction false} CountMarksJoin(a: seq<Assignment>)
    requires forall i :: 0 <= i < |a| ==> NoMarks(a[i].column)
    ensures CountMarks(Join(Placeholders(a), ", ")) == |a|
  {
    if a != [] {
      var p := Placeholders(a);
      CountMarksAppend(a[0].column, " = ?");
      CountMarksNone(a[0].column);
      assert CountMarks(" = ?") == 1;
      if |a| > 1 {
        assert Placeholders(a[1..]) == p[1..];
        CountMarksJoin(a[1..]);
        CountMarksAppend(p[0] + ", ", Join(p[1..], ", "));
        CountMarksAppend(p[0], ", ");
        assert CountMarks(", ") == 0;
      }
    }
  }

  /** In the statement the builder runs, there are exactly as many `?`
      placeholders as bound values. */
  lemma PlaceholderCount(table: string, a: seq<Assignment>, id: string)
    requires NoMarks(table)
    requires forall i :: 0 <= i < |a| ==> NoMarks(a[i].column)
    requires a != []
    ensures CountMarks(UpdateStatement(table, Placeholders(a))) == |BoundValues(a, id)|
  {
    var j := Join(Placeholders(a), ", ");
    var head := "UPDATE " + table;
    var set_ := head + " SET ";
    CountMarksJoin(a);
    CountMarksNone(table);
    StatementMarks();
    CountMarksAppend(set_ + j + " WHERE id = ", "?");
    CountMarksAppend(set_ + j, " WHERE id = ");
    CountMarksAppend(set_, j);
    CountMarksAppend(head, " SET ");
    CountMarksAppend("UPDATE ", table);
  }

  /** The fixed parts of the statement: only the trailing `id = ?` holds a
      mark. */
  lemma StatementMarks()
    ensures CountMarks("UPDATE ") == 0 && CountMarks(" SET ") == 0
    ensures CountMarks(" WHERE id = ") == 0 && CountMarks("?") == 1
  {
    KeywordMarks();
    WhereMarks();
  }

  lemma KeywordMarks()
    ensures CountMarks("UPDATE ") == 0 && CountMarks(" SET ") == 0
  {
    CountMarksNone("UPDATE ");
    CountMarksNone(" SET ");
  }

  lemma WhereMarks()
    ensures CountMarks(" WHERE id = ") == 0 && CountMarks("?") == 1
  {
    CountMarksNone(" WHERE");
    CountMarksNone(" id = ");
    CountMarksAppend(" WHERE", " id = ");
    assert " WHERE id = " == " WHERE" + " id = ";
    MarkMarks();
  }

  lemma MarkMarks()
    ensures CountMarks("?") == 1
  {
    assert "?"[1..] == [];
  }

  /** The column an entry names (the text before " = ?"). */
  function ColumnOf(update: string): string {
    if |update| >= 4 && update[|update| - 4..] == " = ?" then update[..|update| - 4] else update
  }

  lemma ColumnOfPlaceholder(column: string)
    ensures ColumnOf(Placeholder(column)) == column
  {
    assert Placeholder(column)[..|column|] == column;
  }

  /** Apply the SET list of a statement to one row: the i-th entry's column
      takes the i-th bound value. */
  function ApplySet<R>(row: R, assign: (R, string, SqlValue) -> R, updates: seq<string>, values: seq<SqlValue>): R
    requires |values| >= |updates|
  {
    if updates == [] then row
    else ApplySet(assign(row, ColumnOf(updates[0]), values[0]), assign, updates[1..], values[1..])
  }

  /** Run `UPDATE ... SET <updates> WHERE id = ?` with positional `values`:
      `None` when the number of values does not match the placeholders (the
      driver refuses), otherwise the table with every row whose key equals
      the last value updated and every other row as it was. */
  function ExecuteUpdate<R>(rows: seq<R>, key: R -> string, assign: (R, string, SqlValue) -> R,
                            updates: seq<string>, values: seq<SqlValue>): (r: Option<seq<R>>)
    ensures r.Some? <==> |values| == |updates| + 1
    ensures r.Some? ==> |r.value| == |rows|
  {
    if |values| != |updates| + 1 then None
    else
      var target := values[|updates|];
      Some(seq(|rows|, i requires 0 <= i < |rows| =>
        if target.Text? && key(rows[i]) == target.text then ApplySet(rows[i], assign, updates, values) else rows[i]))
  }

  /** The assignments applied to one row, in order. */
  function ApplyAssignments<R>(row: R, assign: (R, string, SqlValue) -> R, a: seq<Assignment>): R {
    if a == [] then row else ApplyAssignments(assign(row, a[0].column, a[0].value), assign, a[1..])
  }

  lemma {:induction false} ApplyAssignmentsAppend<R>(row: R, assign: (R, string, SqlValue) -> R, a: seq<Assignment>, b: seq<Assignment>)
    ensures ApplyAssignments(row, assign, a + b) == ApplyAssignments(ApplyAssignments(row, assign, a), assign, b)
  {
    if a == [] {
      assert a + b == b;
    } else {
      assert (a + b)[0] == a[0] && (a + b)[1..] == a[1..] + b;
      ApplyAssignmentsAppend(assign(row, a[0].column, a[0].value), assign, a[1..], b);
    }
  }

  lemma {:induction false} ApplySetOfAssignments<R>(row: R, assign: (R, string, SqlValue) -> R, a: seq<Assignment>, extra: seq<SqlValue>)
    ensures ApplySet(row, assign, Placeholders(a), ValuesOf(a) + extra) == ApplyAssignments(row, assign, a)
  {
    if a != [] {
      ColumnOfPlaceholder(a[0].column);
      assert Placeholders(a)[1..] == Placeholders(a[1..]);
      assert (ValuesOf(a) + extra)[1..] == ValuesOf(a[1..]) + extra;
      ApplySetOfAssignments(assign(row, a[0].column, a[0].value), assign, a[1..], extra);
    }
  }

  /** Executing what a builder produced updates exactly the row with that id,
      by the builder's assignments in order. */
  lemma ExecuteBuiltUpdate<R>(rows: seq<R>, key: R -> string, assign: (R, string, SqlValue) -> R,
                              a: seq<Assignment>, id: string)
    requires a != []
    ensures ExecuteUpdate(rows, key, assign, Placeholders(a), BoundValues(a, id)).Some?
    ensures forall i :: 0 <= i < |rows| ==>
      ExecuteUpdate(rows, key, assign, Placeholders(a), BoundValues(a, id)).value[i] ==
        if key(rows[i]) == id then ApplyAssignments(rows[i], assign, a) else rows[i]
  {
    forall i | 0 <= i < |rows|
      ensures ApplySet(rows[i], assign, Placeholders(a), BoundValues(a, id)) == ApplyAssignments(rows[i], assign, a)
    {
      ApplySetOfAssignments(rows[i], assign, a, [Text(id)]);
    }
  }
}
