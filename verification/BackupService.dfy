/** The backup file, the transactional restore, and offline verification. */
module BackupService {
  import opened Options
  import opened Backup

  type Row = map<string, Cell>
  type JsonRow = map<string, Json>
  type Tables = map<string, seq<Row>>
  type Data = map<string, seq<JsonRow>>

  /** Every table in a backup, in restore order. */
  function BackupTables(): seq<string> {
    ["operators", "operator_sessions", "audit_log", "agents", "hierarchy_map",
     "skill_packages", "memory_contexts", "playbooks", "tool_definitions", "tool_bindings"]
  }

  const FORMAT_VERSION: string := "1"

  datatype Meta = Meta(version: Option<string>, createdAt: string, tables: seq<string>, counts: map<string, int>)
  datatype Payload = Payload(meta: Option<Meta>, data: Option<Data>)
  datatype File = Missing | Broken | Holding(payload: Payload)

  datatype Fault = NotFound | Unreadable | NoMetadata | NoData | UnknownTable(name: string) | Rejected(table: string)
  datatype Outcome<T> = Done(value: T) | Failed(fault: Fault)

  /** What the database's own constraints say of its tables after an insert into one of them. */
  type Constraints = (Tables, string) -> bool

  ghost predicate ValidRow(r: Row) { forall c :: c in r ==> ValidCell(r[c]) }

  ghost predicate ValidTables(ts: Tables) { forall t, i :: t in ts && 0 <= i < |ts[t]| ==> ValidRow(ts[t][i]) }

  // --- rows --------------------------------------------------------------------------------------------

  function SaveRow(r: Row): JsonRow
    requires ValidRow(r)
  {
    map c | c in r :: Serialise(r[c])
  }

  /** `_parse_row`. */
  function LoadRow(j: JsonRow, more: Lenient): Row { map c | c in j :: Deserialise(j[c], more) }

  function NormalRow(r: Row): Row { map c | c in r :: Normal(r[c]) }

  function SaveRows(rows: seq<Row>): seq<JsonRow>
    requires forall i :: 0 <= i < |rows| ==> ValidRow(rows[i])
  {
    seq(|rows|, i requires 0 <= i < |rows| => SaveRow(rows[i]))
  }

  function LoadRows(rows: seq<JsonRow>, more: Lenient): seq<Row> {
    seq(|rows|, i requires 0 <= i < |rows| => LoadRow(rows[i], more))
  }

  function NormalRows(rows: seq<Row>): seq<Row> { seq(|rows|, i requires 0 <= i < |rows| => NormalRow(rows[i])) }

  ghost predicate MistakenRow(r: Row, more: Lenient) { exists c :: c in r && Mistaken(r[c], more) }

  lemma RowRoundTripIff(r: Row, more: Lenient)
    requires ValidRow(r)
    ensures LoadRow(SaveRow(r), more) == NormalRow(r) <==> !MistakenRow(r, more)
  {
    hide Serialise, Deserialise, Normal, Mistaken, ValidCell;
    forall c | c in r ensures Deserialise(Serialise(r[c]), more) == Normal(r[c]) <==> !Mistaken(r[c], more) {
      CellRoundTripIff(r[c], more);
    }
    if LoadRow(SaveRow(r), more) == NormalRow(r) {
      forall c | c in r ensures !Mistaken(r[c], more) {
        assert LoadRow(SaveRow(r), more)[c] == NormalRow(r)[c];
      }
    }
  }

  lemma RowsRoundTripIff(rows: seq<Row>, more: Lenient)
    requires forall i :: 0 <= i < |rows| ==> ValidRow(rows[i])
    ensures LoadRows(SaveRows(rows), more) == NormalRows(rows)
            <==> forall i :: 0 <= i < |rows| ==> !MistakenRow(rows[i], more)
  {
    hide LoadRow, SaveRow, NormalRow, MistakenRow;
    var back, want := LoadRows(SaveRows(rows), more), NormalRows(rows);
    forall i | 0 <= i < |rows| ensures back[i] == want[i] <==> !MistakenRow(rows[i], more) {
      RowRoundTripIff(rows[i], more);
    }
  }

  /** The ten tables a backup holds. */
  lemma TablesBackedUp(t: string)
    ensures t in BackupTables() <==>
              t in {"operators", "operator_sessions", "audit_log", "agents", "hierarchy_map", "skill_packages",
                    "memory_contexts", "playbooks", "tool_definitions", "tool_bindings"}
  {}

  // --- the file ------------------------------------------------------------------------------------------

  ghost predicate Registered(ts: Tables) { forall i :: 0 <= i < |BackupTables()| ==> BackupTables()[i] in ts }

  function Rows(data: Data, t: string): seq<JsonRow> { if t in data then data[t] else [] }

  /** One table put into the file. */
  function SaveTable(ts: Tables, t: string): seq<JsonRow>
    requires ValidTables(ts) && t in ts
  {
    SaveRows(ts[t])
  }

  /** This data holds exactly the first n tables of the backup list. */
  ghost predicate Exported(ts: Tables, data: Data, counts: map<string, int>, n: nat)
    requires ValidTables(ts) && n <= |BackupTables()| && forall i :: 0 <= i < n ==> BackupTables()[i] in ts
  {
    (forall t :: t in data <==> t in BackupTables()[..n])
    && (forall t :: t in counts <==> t in BackupTables()[..n])
    && (forall i :: 0 <= i < n ==> data[BackupTables()[i]] == SaveTable(ts, BackupTables()[i]))
    && (forall t :: t in data ==> counts[t] == |data[t]|)
  }

  lemma ExportOne(ts: Tables, data: Data, counts: map<string, int>, n: nat)
    requires ValidTables(ts) && n < |BackupTables()| && forall i :: 0 <= i <= n ==> BackupTables()[i] in ts
    requires Exported(ts, data, counts, n)
    ensures var t := BackupTables()[n]; var rows := SaveTable(ts, t);
            Exported(ts, data[t := rows], counts[t := |rows|], n + 1)
  {
    hide BackupTables, SaveTable, ValidTables;
    var names := BackupTables();
    assert names[..n + 1] == names[..n] + [names[n]];
  }

  /** The payload of a backup of these tables. */
  ghost predicate IsBackupOf(p: Payload, ts: Tables, now: string)
    requires ValidTables(ts) && Registered(ts)
  {
    p.meta.Some? && p.data.Some? && p.meta.value.version == Some(FORMAT_VERSION) && p.meta.value.createdAt == now
    && p.meta.value.tables == BackupTables()
    && Exported(ts, p.data.value, p.meta.value.counts, |BackupTables()|)
  }

  // --- restoring one table ---------------------------------------------------------------------------------

  /** Clear and load one table. */
  function RestoreTable(ts: Tables, t: string, rows: seq<JsonRow>, clear: bool, fits: Constraints,
          more: Lenient): Outcome<Tables>
  {
    var cleared := if clear && t in ts then ts[t := []] else ts;
    if rows == [] then Done(cleared)
    else if t !in cleared then Failed(UnknownTable(t))
    else
      var loaded := cleared[t := cleared[t] + LoadRows(rows, more)];
      if fits(loaded, t) then Done(loaded) else Failed(Rejected(t))
  }

  /** All tables of a list, one after the other. */
  function RestoreTables(ts: Tables, names: seq<string>, data: Data, clear: bool, fits: Constraints,
          more: Lenient): Outcome<Tables>
  {
    if names == [] then Done(ts)
    else
      match RestoreTable(ts, names[0], Rows(data, names[0]), clear, fits, more)
      case Failed(e) => Failed(e)
      case Done(next) => RestoreTables(next, names[1..], data, clear, fits, more)
  }

  // --- the service --------------------------------------------------------------------------------------------

  class Service {
    var tables: Tables

    constructor (initial: Tables)
      ensures tables == initial
    {
      tables := initial;
    }

    /** `backup`: reads only. A table that is not registered fails the call. */
    method Backup(now: string) returns (r: Outcome<Payload>)
      requires ValidTables(tables)
      ensures r.Done? <==> Registered(tables)
      ensures r.Done? ==> IsBackupOf(r.value, tables, now)
      ensures r.Failed? ==> r.fault.UnknownTable? && r.fault.name in BackupTables() && r.fault.name !in tables
    {
      var names := BackupTables();
      var data: Data, counts: map<string, int> := map[], map[];
      for i := 0 to |names|
        invariant forall k :: 0 <= k < i ==> names[k] in tables
        invariant Exported(tables, data, counts, i)
      {
        hide BackupTables, SaveTable, ValidTables, IsBackupOf, Exported;
        var t := names[i];
        if t !in tables { return Failed(UnknownTable(t)); }
        ExportOne(tables, data, counts, i);
        var rows := SaveTable(tables, t);
        data, counts := data[t := rows], counts[t := |rows|];
      }
      assert names[..|names|] == names;
      r := Done(Payload(Some(Meta(Some(FORMAT_VERSION), now, names, counts)), Some(data)));
    }

    /** `restore`: one transaction. Whatever fails, the database is as it was. */
    method Restore(file: File, clear: bool, fits: Constraints, more: Lenient) returns (r: Outcome<map<string, int>>)
      modifies this
      ensures file.Missing? ==> r == Failed(NotFound)
      ensures file.Broken? ==> r == Failed(Unreadable)
      ensures file.Holding? && file.payload.meta.None? ==> r == Failed(NoMetadata)
      ensures file.Holding? && file.payload.meta.Some? && file.payload.data.None? ==> r == Failed(NoData)
      ensures r.Failed? ==> tables == old(tables)
      ensures file.Holding? && file.payload.meta.Some? && file.payload.data.Some? ==>
                var all := RestoreTables(old(tables), BackupTables(), file.payload.data.value, clear, fits, more);
                if all.Done? then r.Done? && tables == all.value else r == Failed(all.fault)
      ensures r.Done? ==> forall t :: t in BackupTables() ==>
                t in r.value && r.value[t] == |Rows(file.payload.data.value, t)|
    {
      hide RestoreTable, BackupTables, Rows;
      if file.Missing? { return Failed(NotFound); }
      if file.Broken? { return Failed(Unreadable); }
      if file.payload.meta.None? { return Failed(NoMetadata); }
      if file.payload.data.None? { return Failed(NoData); }
      var data, names, before := file.payload.data.value, BackupTables(), tables;
      var counts: map<string, int> := map[];
      assert names[0..] == names;
      for i := 0 to |names|
        invariant RestoreTables(tables, names[i..], data, clear, fits, more)
                  == RestoreTables(before, names, data, clear, fits, more)
        invariant forall k :: 0 <= k < i ==> names[k] in counts && counts[names[k]] == |Rows(data, names[k])|
      {
        var rows := Rows(data, names[i]);
        assert names[i..][0] == names[i] && names[i..][1..] == names[i + 1..];
        match RestoreTable(tables, names[i], rows, clear, fits, more)
        case Failed(e) =>
          tables := before;
          return Failed(e);
        case Done(next) =>
          tables := next;
          counts := counts[names[i] := |rows|];
      }
      r := Done(counts);
    }
  }

  // --- verification ---------------------------------------------------------------------------------------------

  datatype Verdict = Raised | Verdict(valid: bool)

  /** The password field of an operator row: absent, null, empty or shaped like a bcrypt hash. */
  predicate HashOk(j: JsonRow) {
    "hashed_password" !in j
    || match j["hashed_password"]
       case JNull => true
       case JText(s) => s == "" || "$2" <= s
       case JOther(_, truthy) => !truthy
  }

  /** A text passes exactly if it is empty or starts as a bcrypt hash does. */
  lemma TextHashOkIff(j: JsonRow, s: string)
    requires "hashed_password" in j && j["hashed_password"] == JText(s)
    ensures HashOk(j) <==> s == "" || (|s| >= 2 && s[0] == '$' && s[1] == '2')
  {
    if |s| >= 2 && s[0] == '$' && s[1] == '2' { assert s[..2] == "$2"; }
  }

  /** The prefix test is reached, and raises, on a true value that is not a string. */
  predicate HashRaises(j: JsonRow) {
    "hashed_password" in j && j["hashed_password"].JOther? && j["hashed_password"].truthy
  }

  /** A password fails the test without raising exactly if it is a text that is neither empty nor starts as a
    * bcrypt hash does; nothing raises that passes it. */
  lemma HashVerdictIs(j: JsonRow)
    ensures !HashOk(j) && !HashRaises(j)
            <==> "hashed_password" in j && j["hashed_password"].JText?
                 && j["hashed_password"].text != "" && !("$2" <= j["hashed_password"].text)
    ensures HashRaises(j) ==> !HashOk(j)
    ensures HashRaises(j) <==> "hashed_password" in j && j["hashed_password"].JOther? && j["hashed_password"].truthy
  {}

  ghost predicate StructureOk(meta: Meta, data: Data) {
    meta.version == Some(FORMAT_VERSION)
    && (forall i :: 0 <= i < |BackupTables()| ==> BackupTables()[i] in meta.tables && BackupTables()[i] in data)
    && (forall t :: t in data && t in meta.counts ==> meta.counts[t] == |data[t]|)
  }

  /** Every listed table is named and held, the version is the current one, and every count held is right. */
  lemma StructureIs(meta: Meta, data: Data)
    ensures StructureOk(meta, data)
            <==> meta.version == Some("1")
                 && (forall t :: t in BackupTables() ==> t in meta.tables && t in data)
                 && (forall t :: t in data && t in meta.counts ==> meta.counts[t] == |data[t]|)
  {
    hide BackupTables;
    var names := BackupTables();
    if StructureOk(meta, data) {
      forall t | t in names ensures t in meta.tables && t in data {
        var i :| 0 <= i < |names| && names[i] == t;
      }
    }
  }

  /** `verify`. */
  method Verify(file: File) returns (v: Verdict)
    ensures file.Missing? || file.Broken? ==> v == Verdict(false)
    ensures file.Holding? && (file.payload.meta.None? || file.payload.data.None?) ==> v == Verdict(false)
    ensures file.Holding? && file.payload.meta.Some? && file.payload.data.Some? ==>
              var meta, data := file.payload.meta.value, file.payload.data.value;
              var operators := Rows(data, "operators");
              (v.Raised? <==> exists i :: 0 <= i < |operators| && HashRaises(operators[i]))
              && (v.Verdict? ==>
                    (v.valid <==> meta.version == Some("1")
                                  && (forall t :: t in BackupTables() ==> t in meta.tables && t in data)
                                  && (forall t :: t in data && t in meta.counts ==> meta.counts[t] == |data[t]|)
                                  && forall i :: 0 <= i < |operators| ==> HashOk(operators[i])))
  {
    hide BackupTables, HashOk, HashRaises;
    if !file.Holding? || file.payload.meta.None? || file.payload.data.None? { return Verdict(false); }
    var meta, data, names := file.payload.meta.value, file.payload.data.value, BackupTables();
    var ok := meta.version == Some(FORMAT_VERSION);
    for i := 0 to |names|
      invariant ok <==> meta.version == Some(FORMAT_VERSION) && forall k :: 0 <= k < i ==>
                  names[k] in meta.tables && names[k] in data
    {
      if names[i] !in meta.tables || names[i] !in data { ok := false; }
    }
    if exists t :: t in data && t in meta.counts && meta.counts[t] != |data[t]| { ok := false; }
    assert ok <==> StructureOk(meta, data);
    StructureIs(meta, data);
    ghost var structure := ok;
    var operators := Rows(data, "operators");
    for i := 0 to |operators|
      invariant forall k :: 0 <= k < i ==> !HashRaises(operators[k])
      invariant ok <==> structure && forall k :: 0 <= k < i ==> HashOk(operators[k])
    {
      if HashRaises(operators[i]) { return Raised; }
      if !HashOk(operators[i]) { ok := false; }
    }
    v := Verdict(ok);
  }

  // --- what restore gives back ------------------------------------------------------------------------------------

  ghost predicate Distinct(names: seq<string>) { forall i, k :: 0 <= i < k < |names| ==> names[i] != names[k] }

  lemma RestoreTableIs(ts: Tables, t: string, rows: seq<JsonRow>, clear: bool, fits: Constraints, more: Lenient)
    requires t in ts && RestoreTable(ts, t, rows, clear, fits, more).Done?
    ensures var r := RestoreTable(ts, t, rows, clear, fits, more).value;
            r.Keys == ts.Keys && r[t] == (if clear then [] else ts[t]) + LoadRows(rows, more)
            && forall u :: u in ts && u != t ==> r[u] == ts[u]
  {
  }

  /** A restore that succeeds has replaced, or extended, exactly the listed tables. */
  lemma {:induction false} RestoreTablesAre(ts: Tables, names: seq<string>, data: Data, clear: bool,
          fits: Constraints, more: Lenient)
    requires Distinct(names) && (forall i :: 0 <= i < |names| ==> names[i] in ts)
    requires RestoreTables(ts, names, data, clear, fits, more).Done?
    ensures var r := RestoreTables(ts, names, data, clear, fits, more).value;
            r.Keys == ts.Keys
            && (forall i :: 0 <= i < |names| ==>
                  r[names[i]] == (if clear then [] else ts[names[i]]) + LoadRows(Rows(data, names[i]), more))
            && (forall u :: u in ts && u !in names ==> r[u] == ts[u])
  {
    hide RestoreTable, LoadRows, Rows;
    if names != [] {
      var first, rest := names[0], names[1..];
      RestoreTableIs(ts, first, Rows(data, first), clear, fits, more);
      var next := RestoreTable(ts, first, Rows(data, first), clear, fits, more).value;
      assert forall i :: 0 <= i < |rest| ==> rest[i] == names[i + 1];
      assert first !in rest;
      RestoreTablesAre(next, rest, data, clear, fits, more);
      var r := RestoreTables(ts, names, data, clear, fits, more).value;
      forall i | 0 <= i < |names|
        ensures r[names[i]] == (if clear then [] else ts[names[i]]) + LoadRows(Rows(data, names[i]), more)
      {
        if i > 0 { assert rest[i - 1] == names[i] && names[i] != first; }
      }
    }
  }

  /** The tables once the first n of a list are restored, in one step. */
  function RestoredTo(ts: Tables, names: seq<string>, n: nat, data: Data, clear: bool, more: Lenient): Tables
    requires n <= |names|
  {
    map t | t in ts ::
      if t in names[..n] then (if clear then [] else ts[t]) + LoadRows(Rows(data, t), more) else ts[t]
  }

  /** The insert of the i-th listed table goes through: it has no rows, or it is registered and the database
    * accepts them on top of the tables restored before it. */
  predicate Inserts(ts: Tables, names: seq<string>, i: nat, data: Data, clear: bool, fits: Constraints, more: Lenient)
    requires i < |names|
  {
    Rows(data, names[i]) == []
    || (names[i] in ts && fits(RestoredTo(ts, names, i + 1, data, clear, more), names[i]))
  }

  lemma RestoredOneMore(ts: Tables, names: seq<string>, n: nat, data: Data, clear: bool, more: Lenient)
    requires n < |names| && Distinct(names)
    ensures var rows := LoadRows(Rows(data, names[n]), more);
            var done := RestoredTo(ts, names, n, data, clear, more);
            var t := names[n];
            RestoredTo(ts, names, n + 1, data, clear, more)
            == if t in ts then done[t := (if clear then [] else done[t]) + rows] else done
  {
    hide LoadRows, Rows;
    assert names[..n + 1] == names[..n] + [names[n]];
    assert names[n] !in names[..n];
  }

  lemma RestoreOne(ts: Tables, names: seq<string>, i: nat, data: Data, clear: bool, fits: Constraints, more: Lenient)
    requires i < |names| && Distinct(names)
    ensures var done := RestoredTo(ts, names, i, data, clear, more);
            var r := RestoreTable(done, names[i], Rows(data, names[i]), clear, fits, more);
            (r.Done? <==> Inserts(ts, names, i, data, clear, fits, more))
            && (r.Done? ==> r.value == RestoredTo(ts, names, i + 1, data, clear, more))
  {
    hide Rows, RestoredTo;
    RestoredOneMore(ts, names, i, data, clear, more);
    RestoredKeys(ts, names, i, data, clear, more);
    var done := RestoredTo(ts, names, i, data, clear, more);
    var t := names[i];
    if t in done {
      assert [] + LoadRows(Rows(data, t), more) == LoadRows(Rows(data, t), more);
      assert done[t := done[t]] == done && done[t] + [] == done[t];
      assert done[t := []][t := LoadRows(Rows(data, t), more)] == done[t := LoadRows(Rows(data, t), more)];
    }
  }

  lemma RestoredKeys(ts: Tables, names: seq<string>, n: nat, data: Data, clear: bool, more: Lenient)
    requires n <= |names|
    ensures RestoredTo(ts, names, n, data, clear, more).Keys == ts.Keys
  {}

  lemma {:induction false} RestoresFrom(ts: Tables, names: seq<string>, i: nat, data: Data, clear: bool,
          fits: Constraints, more: Lenient)
    requires i <= |names| && Distinct(names)
    ensures var r := RestoreTables(RestoredTo(ts, names, i, data, clear, more), names[i..], data, clear, fits, more);
            (r.Done? <==> forall k :: i <= k < |names| ==> Inserts(ts, names, k, data, clear, fits, more))
            && (r.Done? ==> r.value == RestoredTo(ts, names, |names|, data, clear, more))
    decreases |names| - i
  {
    hide RestoreTable, RestoredTo, Inserts, Rows;
    if i < |names| {
      RestoreOne(ts, names, i, data, clear, fits, more);
      RestoresFrom(ts, names, i + 1, data, clear, fits, more);
      assert names[i..][0] == names[i] && names[i..][1..] == names[i + 1..];
    }
  }

  /** A restore succeeds if and only if every listed table without rows is skipped or cleared and every other
    * one is registered and accepted by the database; it then ends with exactly the restored tables. */
  lemma RestoreSucceedsIff(ts: Tables, names: seq<string>, data: Data, clear: bool, fits: Constraints, more: Lenient)
    requires Distinct(names)
    ensures var r := RestoreTables(ts, names, data, clear, fits, more);
            (r.Done? <==> forall k :: 0 <= k < |names| ==> Inserts(ts, names, k, data, clear, fits, more))
            && (r.Done? ==> r.value == RestoredTo(ts, names, |names|, data, clear, more))
  {
    RestoresFrom(ts, names, 0, data, clear, fits, more);
    assert names[0..] == names && RestoredTo(ts, names, 0, data, clear, more) == ts;
  }

  /** With every table registered and every insert accepted, restore succeeds. */
  lemma {:induction false} AcceptedRestoreSucceeds(ts: Tables, names: seq<string>, data: Data, clear: bool,
          fits: Constraints, more: Lenient)
    requires forall i :: 0 <= i < |names| ==> names[i] in ts
    requires forall u, t :: fits(u, t)
    ensures RestoreTables(ts, names, data, clear, fits, more).Done?
  {
    hide LoadRows, Rows;
    if names != [] {
      var next := RestoreTable(ts, names[0], Rows(data, names[0]), clear, fits, more).value;
      AcceptedRestoreSucceeds(next, names[1..], data, clear, fits, more);
    }
  }

  lemma BackupTablesAreDistinct()
    ensures Distinct(BackupTables())
  {
    var n := BackupTables();
    assert |n[0]| == 9 && |n[1]| == 17 && |n[2]| == 9 && |n[3]| == 6 && |n[4]| == 13;
    assert |n[5]| == 14 && |n[6]| == 15 && |n[7]| == 9 && |n[8]| == 16 && |n[9]| == 13;
    assert n[0][0] == 'o' && n[2][0] == 'a' && n[7][0] == 'p' && n[4][0] == 'h' && n[9][0] == 't';
  }

  ghost predicate CleanTable(rows: seq<Row>, more: Lenient) {
    forall i :: 0 <= i < |rows| ==> !MistakenRow(rows[i], more)
  }

  /** Restoring a backup, over whatever the target holds, reproduces every backed-up table up to the
    * UTC mark on naive timestamps if and only if no string cell reads as a timestamp; tables outside
    * the backup keep what they hold. */
  lemma RestoreUndoesBackupIff(source: Tables, target: Tables, p: Payload, now: string, fits: Constraints,
          more: Lenient)
    requires ValidTables(source) && Registered(source) && Registered(target) && IsBackupOf(p, source, now)
    requires RestoreTables(target, BackupTables(), p.data.value, true, fits, more).Done?
    ensures var r := RestoreTables(target, BackupTables(), p.data.value, true, fits, more).value;
            r.Keys == target.Keys
            && ((forall i :: 0 <= i < |BackupTables()| ==>
                  r[BackupTables()[i]] == NormalRows(source[BackupTables()[i]]))
                <==> forall i :: 0 <= i < |BackupTables()| ==> CleanTable(source[BackupTables()[i]], more))
            && forall u :: u in target && u !in BackupTables() ==> r[u] == target[u]
  {
    BackupTablesAreDistinct();
    hide BackupTables, RestoreTables, LoadRows, SaveRows, NormalRows, MistakenRow;
    var names, data := BackupTables(), p.data.value;
    RestoreTablesAre(target, names, data, true, fits, more);
    assert names[..|names|] == names;
    forall i | 0 <= i < |names|
      ensures LoadRows(Rows(data, names[i]), more) == NormalRows(source[names[i]])
              <==> CleanTable(source[names[i]], more)
    {
      RowsRoundTripIff(source[names[i]], more);
      assert names[i] in data && data[names[i]] == SaveTable(source, names[i]);
    }
  }

  lemma RowIsStable(r: Row)
    requires ValidRow(r)
    ensures ValidRow(NormalRow(r)) && SaveRow(NormalRow(r)) == SaveRow(r)
  {
    hide Serialise, Normal, ValidCell;
    forall c | c in r ensures ValidCell(Normal(r[c])) && Serialise(Normal(r[c])) == Serialise(r[c]) {
      SerialiseIsStable(r[c]);
    }
  }

  lemma RowsAreStable(rows: seq<Row>)
    requires forall i :: 0 <= i < |rows| ==> ValidRow(rows[i])
    ensures forall i :: 0 <= i < |rows| ==> ValidRow(NormalRows(rows)[i])
    ensures SaveRows(NormalRows(rows)) == SaveRows(rows)
  {
    hide ValidRow, SaveRow, NormalRow;
    forall i | 0 <= i < |rows| ensures ValidRow(NormalRow(rows[i])) && SaveRow(NormalRow(rows[i])) == SaveRow(rows[i]) {
      RowIsStable(rows[i]);
    }
  }

  /** A database restored up to the UTC mark backs up to the very same file. */
  lemma RestoredBacksUpTheSame(source: Tables, restored: Tables, p: Payload, now: string)
    requires ValidTables(source) && Registered(source) && ValidTables(restored) && Registered(restored)
    requires forall i :: 0 <= i < |BackupTables()| ==>
               restored[BackupTables()[i]] == NormalRows(source[BackupTables()[i]])
    requires IsBackupOf(p, source, now)
    ensures IsBackupOf(p, restored, now)
  {
    hide BackupTables, SaveRows, NormalRows, ValidRow;
    var names := BackupTables();
    forall i | 0 <= i < |names| ensures SaveTable(restored, names[i]) == SaveTable(source, names[i]) {
      RowsAreStable(source[names[i]]);
    }
  }

  /** An operator's password cell as the database holds it. */
  predicate HashCellOk(r: Row) {
    "hashed_password" !in r
    || match r["hashed_password"]
       case Null => true
       case Text(s) => s == "" || "$2" <= s
       case Stamped(_) => false
       case Other(_, truthy) => !truthy
  }

  lemma SavedHashIs(r: Row)
    requires ValidRow(r)
    ensures HashOk(SaveRow(r)) <==> HashCellOk(r)
    ensures HashRaises(SaveRow(r))
            <==> "hashed_password" in r && r["hashed_password"].Other? && r["hashed_password"].truthy
  {
    var key := "hashed_password";
    if key in r && r[key].Stamped? {
      var t := Aware(r[key].time);
      hide Serialise, HashOk, HashCellOk;
      StampedIsNoHash(r, t);
    }
  }

  lemma StampedIsNoHash(r: Row, t: Time)
    requires ValidRow(r) && "hashed_password" in r && r["hashed_password"].Stamped?
             && t == Aware(r["hashed_password"].time)
    ensures HashOk(SaveRow(r)) <==> HashCellOk(r)
  {
    hide Iso;
    IsoStartsWithDigit(t);
  }

  lemma IsoStartsWithDigit(t: Time)
    requires ValidTime(t)
    ensures Iso(t) != "" && Iso(t)[0] != '$'
  {
    hide Pad, Stamp;
    var rest := Micro(t.micro) + Offset(t.offset);
    HeadReads(t, rest);
    assert Iso(t)[0] == Iso(t)[..4][0];
  }

  lemma OperatorsAreSaved(ts: Tables, p: Payload, now: string)
    requires ValidTables(ts) && Registered(ts) && IsBackupOf(p, ts, now)
    ensures "operators" in ts && Rows(p.data.value, "operators") == SaveRows(ts["operators"])
    ensures StructureOk(p.meta.value, p.data.value)
  {
    var names, data := BackupTables(), p.data.value;
    assert names[0] == "operators";
    hide BackupTables, SaveRows;
    assert names[..|names|] == names;
    assert data[names[0]] == SaveTable(ts, names[0]);
  }

  ghost predicate HashesOk(rows: seq<Row>) { forall i :: 0 <= i < |rows| ==> HashCellOk(rows[i]) }

  /** No password is a true value other than a string. */
  ghost predicate HashesAreText(rows: seq<Row>) {
    forall i :: 0 <= i < |rows| && "hashed_password" in rows[i] ==>
      !(rows[i]["hashed_password"].Other? && rows[i]["hashed_password"].truthy)
  }

  lemma SavedHashesAre(rows: seq<Row>)
    requires (forall i :: 0 <= i < |rows| ==> ValidRow(rows[i])) && HashesAreText(rows)
    ensures |SaveRows(rows)| == |rows|
    ensures HashesOk(rows) <==> forall i :: 0 <= i < |rows| ==> HashOk(SaveRows(rows)[i])
    ensures forall i :: 0 <= i < |rows| ==> !HashRaises(SaveRows(rows)[i])
  {
    hide SaveRow, HashOk, HashRaises, HashCellOk, ValidRow;
    forall i | 0 <= i < |rows|
      ensures (HashOk(SaveRows(rows)[i]) <==> HashCellOk(rows[i])) && !HashRaises(SaveRows(rows)[i])
    {
      SavedHashIs(rows[i]);
    }
  }

  /** A backup passes `verify` if and only if every operator's password is empty or shaped like a
    * bcrypt hash. */
  method BackupThenVerify(service: Service, now: string) returns (v: Verdict)
    requires ValidTables(service.tables) && Registered(service.tables) && "operators" in service.tables
    requires HashesAreText(service.tables["operators"])
    ensures v == Verdict(HashesOk(service.tables["operators"]))
  {
    hide BackupTables, SaveRows, HashOk, HashRaises, HashesOk, HashesAreText, StructureOk, IsBackupOf, Rows;
    var b := service.Backup(now);
    OperatorsAreSaved(service.tables, b.value, now);
    SavedHashesAre(service.tables["operators"]);
    BackupHasParts(b.value, service.tables, now);
    StructureIs(b.value.meta.value, b.value.data.value);
    v := Verify(Holding(b.value));
  }

  lemma BackupHasParts(p: Payload, ts: Tables, now: string)
    requires ValidTables(ts) && Registered(ts) && IsBackupOf(p, ts, now)
    ensures p.meta.Some? && p.data.Some?
  {
  }
}
