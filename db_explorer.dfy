/**
 * The row helpers of the database explorer: which columns an INSERT (PUT on a table) or an
 * UPDATE (POST on a record) writes, the argument list that goes with the statement, the
 * type check on updated values, and the placeholder text of both statements.
 */
module DbExplorer {
  import opened Wrappers
  import opened Strings
  import opened Json

  /** reflect.Kind, restricted to the kinds a column or a decoded JSON value can have. */
  datatype Kind = IntKind | Float64Kind | StringKind | BoolKind | MapKind | SliceKind

  /** The kind encoding/json gives a decoded value: every number is a float64. */
  function KindOf(v: Value): Kind
    requires !v.Null?
  {
    match v
    case Bool(_) => BoolKind
    case Number(_) => Float64Kind
    case Str(_) => StringKind
    case List(_) => SliceKind
    case Object(_) => MapKind
  }

  /** A table's metadata: columns in table order, nullability, column kinds, primary key. */
  datatype DBTable = DBTable(name: string, fields: seq<string>, nullable: map<string, bool>, types: seq<Kind>, pk: string)

  /** A column missing from the nullability map reads as Go's zero value, false. */
  predicate Nullable(table: DBTable, el: string)
  {
    el in table.nullable && table.nullable[el]
  }

  predicate Distinct(s: seq<string>)
  {
    forall i, j :: 0 <= i < j < |s| ==> s[i] != s[j]
  }

  /** What the metadata loader builds: one kind per column, no column listed twice. */
  predicate WellFormed(table: DBTable)
  {
    Distinct(table.fields) && |table.types| == |table.fields|
  }

  // ----- column selection -----

  /** The elements of `s` that `keep` accepts, in their order in `s`. */
  function Filter(s: seq<string>, keep: string -> bool): (r: seq<string>)
    ensures |r| <= |s|
    ensures forall i :: 0 <= i < |r| ==> keep(r[i])
    ensures forall x :: x in r <==> x in s && keep(x)
  {
    if |s| == 0 then []
    else Filter(s[..|s| - 1], keep) + (if keep(s[|s| - 1]) then [s[|s| - 1]] else [])
  }

  /** `a` is `b` with some elements left out, the rest kept in order. */
  predicate Subsequence(a: seq<string>, b: seq<string>)
    decreases |b|
  {
    if |a| == 0 then true
    else if |b| == 0 then false
    else if a[|a| - 1] == b[|b| - 1] then Subsequence(a[..|a| - 1], b[..|b| - 1])
    else Subsequence(a, b[..|b| - 1])
  }

  /** A filtered list keeps the relative order of the original. */
  lemma {:induction false} FilterSubsequence(s: seq<string>, keep: string -> bool)
    ensures Subsequence(Filter(s, keep), s)
  {
    if |s| > 0 {
      var init, x := s[..|s| - 1], s[|s| - 1];
      var f := Filter(init, keep);
      FilterSubsequence(init, keep);
      if keep(x) {
        assert Filter(s, keep) == f + [x];
        assert (f + [x])[..|f|] == f;
      } else {
        assert Filter(s, keep) == f;
        assert |f| > 0 ==> keep(f[|f| - 1]);
      }
    }
  }

  /** Filtering with a stronger test picks a subsequence of what the weaker test picks. */
  lemma {:induction false} FilterMonotone(s: seq<string>, p: string -> bool, q: string -> bool)
    requires forall x :: p(x) ==> q(x)
    ensures Subsequence(Filter(s, p), Filter(s, q))
  {
    if |s| > 0 {
      var init, x := s[..|s| - 1], s[|s| - 1];
      var fp, fq := Filter(init, p), Filter(init, q);
      FilterMonotone(init, p, q);
      if p(x) {
        assert Filter(s, p) == fp + [x];
        assert Filter(s, q) == fq + [x];
        assert (fp + [x])[..|fp|] == fp;
        assert (fq + [x])[..|fq|] == fq;
      } else if q(x) {
        assert Filter(s, p) == fp;
        assert Filter(s, q) == fq + [x];
        SubsequenceExtend(fp, fq, x);
      } else {
        assert Filter(s, p) == fp;
        assert Filter(s, q) == fq;
      }
    }
  }

  /** A subsequence of `b` is a subsequence of `b` with one more element at the end. */
  lemma {:induction false} SubsequenceExtend(a: seq<string>, b: seq<string>, x: string)
    requires Subsequence(a, b)
    ensures Subsequence(a, b + [x])
    decreases |b|, 1
  {
    assert (b + [x])[..|b|] == b;
    if |a| > 0 && a[|a| - 1] == x {
      SubsequencePrefix(a[..|a| - 1], a, b);
    }
  }

  /** Dropping the last element of a subsequence leaves a subsequence. */
  lemma {:induction false} SubsequencePrefix(a0: seq<string>, a: seq<string>, b: seq<string>)
    requires |a| > 0 && a0 == a[..|a| - 1]
    requires Subsequence(a, b)
    ensures Subsequence(a0, b)
    decreases |b|, 0
  {
    if |a0| > 0 {
      var b0, y := b[..|b| - 1], b[|b| - 1];
      assert b == b0 + [y];
      if a[|a| - 1] != y {
        SubsequencePrefix(a0, a, b0);
      }
      SubsequenceExtend(a0, b0, y);
    }
  }

  /** fieldList's test: a present column is written unless it is the key; an absent one unless nullable. */
  predicate Inserted(table: DBTable, data: map<string, Value>, el: string)
  {
    if el in data then el != table.pk else !Nullable(table, el)
  }

  function InsertKeep(table: DBTable, data: map<string, Value>): string -> bool
  {
    el => Inserted(table, data, el)
  }

  /** fieldList2's test: only present columns, never the key. */
  function UpdateKeep(table: DBTable, data: map<string, Value>): string -> bool
  {
    el => el in data && el != table.pk
  }

  /**
   * The caller's map after fieldList has visited `cols`: each absent non-nullable column
   * visited now holds "", every other entry is as it was.
   */
  function Filled(table: DBTable, data: map<string, Value>, cols: seq<string>): (r: map<string, Value>)
    ensures forall k :: k in r <==> k in data || (k in cols && !Nullable(table, k))
    ensures forall k :: k in data ==> r[k] == data[k]
    ensures forall k :: k in r && k !in data ==> r[k] == Str("")
  {
    if |cols| == 0 then data
    else
      var r := Filled(table, data, cols[..|cols| - 1]);
      var el := cols[|cols| - 1];
      assert cols == cols[..|cols| - 1] + [el];
      if el !in data && !Nullable(table, el) then r[el := Str("")] else r
  }

  /**
   * fieldList: the columns of an INSERT, in table order. The caller's map comes back as
   * `filled`, with "" stored for every absent non-nullable column.
   */
  method FieldList(table: DBTable, data: map<string, Value>) returns (fields: seq<string>, filled: map<string, Value>)
    requires Distinct(table.fields)
    ensures fields == Filter(table.fields, InsertKeep(table, data))
    ensures filled == Filled(table, data, table.fields)
  {
    fields, filled := [], data;
    for i := 0 to |table.fields|
      invariant fields == Filter(table.fields[..i], InsertKeep(table, data))
      invariant filled == Filled(table, data, table.fields[..i])
    {
      var el := table.fields[i];
      assert el !in table.fields[..i];
      FieldListStep(table, data, table.fields, i);
      if el in filled {
        if el != table.pk {
          fields := fields + [el];
        }
      } else {
        if !Nullable(table, el) {
          fields := fields + [el];
          filled := filled[el := Str("")];
        }
      }
    }
    assert table.fields[..|table.fields|] == table.fields;
  }

  /** One more column visited by fieldList: whether it is written, and what the map then holds. */
  lemma FieldListStep(table: DBTable, data: map<string, Value>, cols: seq<string>, i: int)
    requires 0 <= i < |cols| && cols[i] !in cols[..i]
    ensures cols[i] in Filled(table, data, cols[..i]) <==> cols[i] in data
    ensures Filter(cols[..i + 1], InsertKeep(table, data)) ==
              Filter(cols[..i], InsertKeep(table, data)) + (if Inserted(table, data, cols[i]) then [cols[i]] else [])
    ensures Filled(table, data, cols[..i + 1]) ==
              if cols[i] !in data && !Nullable(table, cols[i]) then Filled(table, data, cols[..i])[cols[i] := Str("")]
              else Filled(table, data, cols[..i])
  {
    assert cols[..i + 1][..i] == cols[..i];
  }

  /** fieldList2: the present non-key columns, in table order; the caller's map is not touched. */
  method FieldList2(table: DBTable, data: map<string, Value>) returns (fields: seq<string>)
    ensures fields == Filter(table.fields, UpdateKeep(table, data))
  {
    fields := [];
    for i := 0 to |table.fields|
      invariant fields == Filter(table.fields[..i], UpdateKeep(table, data))
    {
      var el := table.fields[i];
      assert table.fields[..i + 1][..i] == table.fields[..i];
      if el in data {
        if el != table.pk {
          fields := fields + [el];
        }
      }
    }
    assert table.fields[..|table.fields|] == table.fields;
  }

  /** An UPDATE writes a subset of the columns an INSERT of the same body writes, in the same order. */
  lemma UpdateColumnsWithinInsertColumns(table: DBTable, data: map<string, Value>)
    ensures Subsequence(Filter(table.fields, UpdateKeep(table, data)), Filter(table.fields, InsertKeep(table, data)))
  {
    FilterMonotone(table.fields, UpdateKeep(table, data), InsertKeep(table, data));
  }

  /** valuesList: the value of each column, in column order. */
  method ValuesList(fields: seq<string>, data: map<string, Value>) returns (res: seq<Value>)
    ensures |res| == |fields|
    ensures forall i :: 0 <= i < |fields| ==> res[i] == Lookup(data, fields[i])
  {
    res := [];
    for i := 0 to |fields|
      invariant |res| == i
      invariant forall j :: 0 <= j < i ==> res[j] == Lookup(data, fields[j])
    {
      res := res + [Lookup(data, fields[i])];
    }
  }

  // ----- type check of updated values -----

  /** The position findIndex reports: the first one holding `name`, or 0 when there is none. */
  function FirstIndex(name: string, fs: seq<string>): (ix: nat)
    ensures name in fs ==> ix < |fs| && fs[ix] == name && name !in fs[..ix]
    ensures name !in fs ==> ix == 0
  {
    if |fs| == 0 then 0
    else if fs[0] == name then 0
    else
      var j := FirstIndex(name, fs[1..]);
      assert fs == [fs[0]] + fs[1..];
      assert name in fs[1..] ==> fs[..j + 1] == [fs[0]] + fs[1..][..j];
      if name in fs[1..] then j + 1 else 0
  }

  /** findIndex. */
  method FindIndex(name: string, table: DBTable) returns (ix: nat)
    ensures ix == FirstIndex(name, table.fields)
  {
    for i := 0 to |table.fields|
      invariant name !in table.fields[..i]
    {
      if table.fields[i] == name {
        return i;
      }
      assert table.fields[..i + 1] == table.fields[..i] + [table.fields[i]];
    }
    assert table.fields[..|table.fields|] == table.fields;
    return 0;
  }

  /**
   * validateValues' test of one column: nil is refused exactly when the column is not
   * nullable; any other value is refused exactly when the column is not an int column and
   * the value's kind differs from the column's. The kind is read at the position findIndex gives.
   */
  predicate Rejected(table: DBTable, el: string, v: Value)
    requires 0 < |table.fields| <= |table.types|
  {
    var ix := FirstIndex(el, table.fields);
    if v.Null? then !Nullable(table, el)
    else table.types[ix] != IntKind && KindOf(v) != table.types[ix]
  }

  function InvalidType(name: string): string
  {
    "field " + name + " have invalid type"
  }

  /** validateValues: the first refused column, named as the table spells the column found. */
  method ValidateValues(fields: seq<string>, values: seq<Value>, table: DBTable) returns (err: Option<string>)
    requires |fields| <= |values|
    requires |table.fields| <= |table.types|
    requires |fields| > 0 ==> |table.fields| > 0
    ensures err.None? <==> forall i :: 0 <= i < |fields| ==> !Rejected(table, fields[i], values[i])
    ensures err.Some? ==>
              exists i :: 0 <= i < |fields| && Rejected(table, fields[i], values[i])
                          && (forall j :: 0 <= j < i ==> !Rejected(table, fields[j], values[j]))
                          && err.value == InvalidType(table.fields[FirstIndex(fields[i], table.fields)])
  {
    for ix := 0 to |fields|
      invariant forall j :: 0 <= j < ix ==> !Rejected(table, fields[j], values[j])
    {
      var el := fields[ix];
      var ixx := FindIndex(el, table);
      if values[ix] != Null {
        if table.types[ixx] != IntKind && KindOf(values[ix]) != table.types[ixx] {
          assert Rejected(table, el, values[ix]);
          return Some(InvalidType(table.fields[ixx]));
        }
      } else {
        if !Nullable(table, el) {
          assert Rejected(table, el, values[ix]);
          return Some(InvalidType(table.fields[ixx]));
        }
      }
    }
    return None;
  }

  /** An int column takes any non-nil value: only nil can be refused there. */
  lemma IntColumnTakesAnyValue(table: DBTable, el: string, v: Value)
    requires 0 < |table.fields| <= |table.types|
    requires el in table.fields && table.types[FirstIndex(el, table.fields)] == IntKind
    ensures Rejected(table, el, v) <==> v.Null? && !Nullable(table, el)
  {
  }

  // ----- statement text -----

  /** Occurrences of `c` in `s`. */
  function Count(s: string, c: char): nat
  {
    if |s| == 0 then 0 else (if s[0] == c then 1 else 0) + Count(s[1..], c)
  }

  lemma {:induction false} CountConcat(a: string, b: string, c: char)
    ensures Count(a + b, c) == Count(a, c) + Count(b, c)
  {
    if |a| > 0 {
      CountConcat(a[1..], b, c);
      assert (a + b)[0] == a[0];
      assert (a + b)[1..] == a[1..] + b;
    } else {
      assert a + b == b;
    }
  }

  lemma {:induction false} CountAbsent(s: string, c: char)
    requires c !in s
    ensures Count(s, c) == 0
  {
    if |s| > 0 {
      CountAbsent(s[1..], c);
    }
  }

  function SumCount(parts: seq<string>, c: char): nat
  {
    if |parts| == 0 then 0 else Count(parts[0], c) + SumCount(parts[1..], c)
  }

  lemma {:induction false} CountJoin(parts: seq<string>, sep: string, c: char)
    requires c !in sep
    ensures Count(Join(parts, sep), c) == SumCount(parts, c)
  {
    if |parts| > 1 {
      CountJoin(parts[1..], sep, c);
      CountAbsent(sep, c);
      CountConcat(parts[0], sep, c);
      CountConcat(parts[0] + sep, Join(parts[1..], sep), c);
    }
  }

  lemma {:induction false} SumCountAbsent(parts: seq<string>, c: char)
    requires forall i :: 0 <= i < |parts| ==> c !in parts[i]
    ensures SumCount(parts, c) == 0
  {
    if |parts| > 0 {
      CountAbsent(parts[0], c);
      SumCountAbsent(parts[1..], c);
    }
  }

  /** n question marks, as a list of one-character strings. */
  function Marks(n: nat): seq<string>
  {
    seq(n, _ => "?")
  }

  /** The VALUES placeholder list of an INSERT with n columns: "?," n times, commas trimmed. */
  function Placeholders(n: nat): string
  {
    Trim(Repeat("?,", n), ',')
  }

  lemma {:induction false} RepeatMarks(n: nat)
    requires n >= 1
    ensures Repeat("?,", n) == Join(Marks(n), ",") + ","
    ensures Join(Marks(n), ",")[0] == '?'
    ensures Join(Marks(n), ",")[|Join(Marks(n), ",")| - 1] == '?'
  {
    if n > 1 {
      RepeatMarks(n - 1);
      assert Marks(n)[1..] == Marks(n - 1);
      assert Join(Marks(n), ",") == "?" + "," + Join(Marks(n - 1), ",");
    }
  }

  /** The placeholder text is exactly n question marks joined by commas. */
  lemma PlaceholdersAreJoinedMarks(n: nat)
    ensures Placeholders(n) == Join(Marks(n), ",")
  {
    if n >= 1 {
      RepeatMarks(n);
      var j := Join(Marks(n), ",");
      var s := j + ",";
      assert TrimLeft(s, ',') == s;
      assert s[..|s| - 1] == j;
      assert TrimRight(j, ',') == j;
    }
  }

  lemma {:induction false} SumCountMarks(n: nat)
    ensures SumCount(Marks(n), '?') == n
  {
    if n > 0 {
      assert Marks(n)[1..] == Marks(n - 1);
      SumCountMarks(n - 1);
    }
  }

  lemma PlaceholderCount(n: nat)
    ensures Count(Placeholders(n), '?') == n
  {
    PlaceholdersAreJoinedMarks(n);
    CountJoin(Marks(n), ",", '?');
    SumCountMarks(n);
  }

  /** The columns, the argument list and the statement text handed to the database. */
  datatype Statement = Statement(sql: string, columns: seq<string>, args: seq<Value>)

  /** No table, key or column name contains a question mark. */
  predicate Unmarked(tn: string, table: DBTable)
  {
    '?' !in tn && '?' !in table.pk && forall f :: f in table.fields ==> '?' !in f
  }

  function InsertSql(tn: string, cols: seq<string>): string
  {
    "INSERT INTO " + tn + " (" + Join(cols, ",") + ") VALUES (" + Placeholders(|cols|) + ")"
  }

  /** The INSERT text has one placeholder per column. */
  lemma InsertSqlCount(tn: string, cols: seq<string>)
    requires '?' !in tn
    requires forall i :: 0 <= i < |cols| ==> '?' !in cols[i]
    ensures Count(InsertSql(tn, cols), '?') == |cols|
  {
    CountJoin(cols, ",", '?');
    SumCountAbsent(cols, '?');
    PlaceholderCount(|cols|);
    CountAbsent(tn, '?');
    InsertShapeCount(tn, Join(cols, ","), Placeholders(|cols|));
  }

  lemma InsertShapeCount(tn: string, names: string, marks: string)
    requires Count(tn, '?') == 0
    ensures Count("INSERT INTO " + tn + " (" + names + ") VALUES (" + marks + ")", '?')
            == Count(names, '?') + Count(marks, '?')
  {
    CountSeven("INSERT INTO ", tn, " (", names, ") VALUES (", marks, ")", '?');
    assert Count("INSERT INTO ", '?') == 0;
    assert Count(" (", '?') == 0;
    assert Count(") VALUES (", '?') == 0;
    assert Count(")", '?') == 0;
  }

  lemma CountSeven(a: string, b: string, d: string, e: string, f: string, g: string, h: string, c: char)
    ensures Count(a + b + d + e + f + g + h, c)
            == Count(a, c) + Count(b, c) + Count(d, c) + Count(e, c) + Count(f, c) + Count(g, c) + Count(h, c)
  {
    CountConcat(a, b, c);
    CountConcat(a + b, d, c);
    CountConcat(a + b + d, e, c);
    CountConcat(a + b + d + e, f, c);
    CountConcat(a + b + d + e + f, g, c);
    CountConcat(a + b + d + e + f + g, h, c);
  }

  function UpdateSql(tn: string, pk: string, assignments: seq<string>): string
  {
    "UPDATE " + tn + " SET " + Join(assignments, ",") + " WHERE " + pk + "=?"
  }

  /** The UPDATE text has one placeholder per assignment plus one for the key. */
  lemma UpdateSqlCount(tn: string, pk: string, assignments: seq<string>)
    requires '?' !in tn && '?' !in pk
    ensures Count(UpdateSql(tn, pk, assignments), '?') == SumCount(assignments, '?') + 1
  {
    CountJoin(assignments, ",", '?');
    CountAbsent(tn, '?');
    CountAbsent(pk, '?');
    CountAbsent("UPDATE ", '?');
    CountAbsent(" SET ", '?');
    CountAbsent(" WHERE ", '?');
    CountConcat("=", "?", '?');
    CountAbsent("=", '?');
    var p1 := "UPDATE " + tn;
    var p2 := p1 + " SET ";
    var p3 := p2 + Join(assignments, ",");
    var p4 := p3 + " WHERE ";
    var p5 := p4 + pk;
    CountConcat("UPDATE ", tn, '?');
    CountConcat(p1, " SET ", '?');
    CountConcat(p2, Join(assignments, ","), '?');
    CountConcat(p3, " WHERE ", '?');
    CountConcat(p4, pk, '?');
    CountConcat(p5, "=?", '?');
  }

  /**
   * The INSERT built for PUT on a table: the fieldList columns, their values read from the
   * updated map, and one placeholder per value.
   */
  method PrepareInsert(tn: string, table: DBTable, data: map<string, Value>) returns (stmt: Statement, filled: map<string, Value>)
    requires Distinct(table.fields)
    ensures stmt.columns == Filter(table.fields, InsertKeep(table, data))
    ensures filled == Filled(table, data, table.fields)
    ensures |stmt.args| == |stmt.columns|
    ensures forall i :: 0 <= i < |stmt.columns| ==> stmt.columns[i] in filled && stmt.args[i] == filled[stmt.columns[i]]
    ensures stmt.sql == InsertSql(tn, stmt.columns)
    ensures Unmarked(tn, table) ==> Count(stmt.sql, '?') == |stmt.args|
  {
    var realFields;
    realFields, filled := FieldList(table, data);
    var values := ValuesList(realFields, filled);
    stmt := Statement(InsertSql(tn, realFields), realFields, values);
    forall i | 0 <= i < |realFields|
      ensures realFields[i] in filled && realFields[i] in table.fields
    {
      assert realFields[i] in realFields;
    }
    if Unmarked(tn, table) {
      InsertSqlCount(tn, realFields);
    }
  }

  /** The SET clause entries, one "column=?" per written column, in column order. */
  function SetClause(fields: seq<string>): (a: seq<string>)
    ensures |a| == |fields|
    ensures forall i :: 0 <= i < |fields| ==> a[i] == fields[i] + "=?"
  {
    if |fields| == 0 then [] else SetClause(fields[..|fields| - 1]) + [fields[|fields| - 1] + "=?"]
  }

  /** The loop that builds the SET clause entries. */
  method SetAssignments(fields: seq<string>) returns (assignments: seq<string>)
    ensures assignments == SetClause(fields)
    ensures |assignments| == |fields|
    ensures forall i :: 0 <= i < |fields| ==> assignments[i] == fields[i] + "=?"
  {
    assignments := [];
    for i := 0 to |fields|
      invariant |assignments| == i
      invariant forall j :: 0 <= j < i ==> assignments[j] == fields[j] + "=?"
    {
      assignments := assignments + [fields[i] + "=?"];
    }
  }

  lemma {:induction false} SumCountAssignments(assignments: seq<string>, fields: seq<string>)
    requires |assignments| == |fields|
    requires forall i :: 0 <= i < |fields| ==> assignments[i] == fields[i] + "=?" && '?' !in fields[i]
    ensures SumCount(assignments, '?') == |assignments|
  {
    if |assignments| > 0 {
      CountAbsent(fields[0], '?');
      CountConcat(fields[0], "=?", '?');
      SumCountAssignments(assignments[1..], fields[1..]);
    }
  }

  /** The columns a POST on a record writes. */
  function UpdateColumns(table: DBTable, data: map<string, Value>): (cols: seq<string>)
    ensures forall i :: 0 <= i < |cols| ==> cols[i] in data && cols[i] in table.fields
  {
    var cols := Filter(table.fields, UpdateKeep(table, data));
    assert forall i :: 0 <= i < |cols| ==> cols[i] in cols;
    cols
  }

  /**
   * The UPDATE built for POST on a record. A body naming the primary key is refused; so is a
   * value validateValues refuses. Otherwise the statement sets every fieldList2 column, takes
   * the record id as its last argument, and has one placeholder per argument.
   */
  method PrepareUpdate(tn: string, table: DBTable, data: map<string, Value>, id: int) returns (r: Result<Statement, string>)
    requires WellFormed(table)
    ensures table.pk in data ==> r == Err(InvalidType(table.pk))
    ensures table.pk !in data ==>
              (r.Ok? <==> forall i :: 0 <= i < |UpdateColumns(table, data)| ==>
                            !Rejected(table, UpdateColumns(table, data)[i], data[UpdateColumns(table, data)[i]]))
    ensures r.Ok? ==> r.value.columns == UpdateColumns(table, data)
    ensures r.Ok? ==> r.value.sql == UpdateSql(tn, table.pk, SetClause(r.value.columns))
    ensures r.Ok? ==> |r.value.args| == |r.value.columns| + 1 && r.value.args[|r.value.columns|] == Number(id)
    ensures r.Ok? ==> forall i :: 0 <= i < |r.value.columns| ==> r.value.args[i] == data[r.value.columns[i]]
    ensures r.Ok? && Unmarked(tn, table) ==> Count(r.value.sql, '?') == |r.value.args|
  {
    var realFields := FieldList2(table, data);
    assert realFields == UpdateColumns(table, data);
    if table.pk in data {
      return Err(InvalidType(table.pk));
    }
    var values := ValuesList(realFields, data);
    var err := ValidateValues(realFields, values, table);
    if err.Some? {
      return Err(err.value);
    }
    var stmt := UpdateStatement(tn, table.pk, realFields, values, id);
    if Unmarked(tn, table) {
      assert forall f :: f in realFields ==> f in table.fields;
    }
    r := Ok(stmt);
  }

  /**
   * The tail of the UPDATE handler: the SET clause, the key condition, and the id appended to
   * the arguments. The text has one placeholder per argument when no name holds a '?'.
   */
  method UpdateStatement(tn: string, pk: string, fields: seq<string>, values: seq<Value>, id: int) returns (stmt: Statement)
    ensures stmt.columns == fields
    ensures stmt.sql == UpdateSql(tn, pk, SetClause(fields))
    ensures stmt.args == values + [Number(id)]
    ensures |stmt.args| == |values| + 1 && stmt.args[|values|] == Number(id)
    ensures '?' !in tn && '?' !in pk && (forall f :: f in fields ==> '?' !in f) && |values| == |fields| ==>
              Count(stmt.sql, '?') == |stmt.args|
  {
    var assignments := SetAssignments(fields);
    stmt := Statement(UpdateSql(tn, pk, assignments), fields, values + [Number(id)]);
    if '?' !in tn && '?' !in pk && (forall f :: f in fields ==> '?' !in f) {
      forall i | 0 <= i < |fields| ensures '?' !in fields[i] {
        assert fields[i] in fields;
      }
      SumCountAssignments(assignments, fields);
      UpdateSqlCount(tn, pk, assignments);
    }
  }
}
