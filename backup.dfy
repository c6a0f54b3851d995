/** The backup page of src/pages/BackupReset.tsx over an abstract store of the six
    business tables: the backup document, the restore that empties every table and
    inserts the document's arrays, and the reset behind its typed confirmation. */
module Backup {
  import opened Wrappers
  import opened Lists

  datatype TableName = Farms | Agents | Vouchers | Bills | CuttingSchedules | LedgerEntries

  /** A stored row: its `id` and the rest of its columns, which the page only copies. */
  datatype Row = Row(id: string, columns: string)

  /** The id that every delete spares: `.delete().neq('id', NilId)`. */
  const NilId: string := "00000000-0000-0000-0000-000000000000"

  /** The exact text the reset button demands. */
  const ResetPhrase: string := "RESET DATABASE"

  predicate IsNilRow(r: Row) { r.id == NilId }

  /** What a whole-table delete leaves: the rows whose id is the nil UUID. */
  function NilRows(rows: seq<Row>): (r: seq<Row>)
    ensures forall i :: 0 <= i < |r| ==> r[i] in rows && r[i].id == NilId
    ensures forall i :: 0 <= i < |rows| && rows[i].id == NilId ==> rows[i] in r
  {
    Filter(rows, IsNilRow)
  }

  /** A table with no nil-UUID row is emptied completely. */
  lemma NilRowsNone(rows: seq<Row>)
    requires forall i :: 0 <= i < |rows| ==> rows[i].id != NilId
    ensures NilRows(rows) == []
  {
    FilterNone(rows, IsNilRow);
  }

  lemma AppendAssoc<T>(a: seq<T>, b: seq<T>, c: seq<T>)
    ensures a + b + c == a + (b + c)
  {
  }

  /** One call the page made on the store. */
  datatype StoreOp = DeleteOp(table: TableName) | InsertOp(table: TableName, rows: nat)

  /** The deletes of both reset and restore, dependents first. */
  const DeleteLog: seq<StoreOp> := [DeleteOp(LedgerEntries), DeleteOp(Bills), DeleteOp(Vouchers),
                                    DeleteOp(CuttingSchedules), DeleteOp(Agents), DeleteOp(Farms)]

  /** The document's `tables`: each present key is an array of rows. */
  type Tables = map<TableName, seq<Row>>

  /** `{ timestamp, tables }`; `tables` is absent in a document that lacks the key. */
  datatype BackupDoc = BackupDoc(timestamp: string, tables: Option<Tables>)

  /** `tables.<name>`, with a missing array read as empty. */
  function BackupArray(m: Tables, t: TableName): seq<Row>
  {
    if t in m then m[t] else []
  }

  /** `if (tables.<name>?.length > 0) insert(tables.<name>)`. */
  function InsertStep(m: Tables, t: TableName): seq<StoreOp>
  {
    if |BackupArray(m, t)| > 0 then [InsertOp(t, |BackupArray(m, t)|)] else []
  }

  /** The inserts a restore makes, in the page's order. */
  function InsertLog(m: Tables): seq<StoreOp>
  {
    InsertStep(m, Farms) + InsertStep(m, Agents) + InsertStep(m, Vouchers)
    + InsertStep(m, Bills) + InsertStep(m, CuttingSchedules) + InsertStep(m, LedgerEntries)
  }

  /** The rows a restore adds to table `t`: the document's array, unless the store
      refused that insert. */
  function Added(m: Tables, t: TableName, refused: set<TableName>): seq<Row>
  {
    if t in refused then [] else BackupArray(m, t)
  }

  /** The table a restore leaves: the spared nil-UUID rows, then the added ones. */
  function Restored(current: seq<Row>, m: Tables, t: TableName, refused: set<TableName>): seq<Row>
  {
    NilRows(current) + Added(m, t, refused)
  }

  /** The round trip: restoring a document whose tables are `snapshot`, onto a store with
      no nil-UUID rows, makes each table equal its snapshot. */
  lemma RestoreOfBackup(current: seq<Row>, snapshot: Tables, t: TableName)
    requires t in snapshot
    requires forall i :: 0 <= i < |current| ==> current[i].id != NilId
    ensures Restored(current, snapshot, t, {}) == snapshot[t]
  {
    NilRowsNone(current);
  }

  /** A map holding the six names holds every table. */
  lemma EveryTable(m: Tables)
    requires Farms in m && Agents in m && Vouchers in m && Bills in m
    requires CuttingSchedules in m && LedgerEntries in m
    ensures forall t: TableName :: t in m
  {
    forall t: TableName
      ensures t in m
    {
      match t
      case Farms =>
      case Agents =>
      case Vouchers =>
      case Bills =>
      case CuttingSchedules =>
      case LedgerEntries =>
    }
  }

  /** The document's `tables` object, one array per table. */
  function TablesOf(farms: seq<Row>, agents: seq<Row>, vouchers: seq<Row>, bills: seq<Row>,
                    cutting: seq<Row>, ledger: seq<Row>): (m: Tables)
    ensures forall t: TableName :: t in m
    ensures m[Farms] == farms && m[Agents] == agents && m[Vouchers] == vouchers
    ensures m[Bills] == bills && m[CuttingSchedules] == cutting && m[LedgerEntries] == ledger
  {
    var m := map[Farms := farms, Agents := agents, Vouchers := vouchers, Bills := bills,
                 CuttingSchedules := cutting, LedgerEntries := ledger];
    EveryTable(m);
    m
  }

  /** A table as the backup reads it: its rows, or none when its select failed. */
  function Picked(current: Tables, failed: set<TableName>, t: TableName): seq<Row>
    requires t in current
  {
    if t in failed then [] else current[t]
  }

  /** A map that holds each table's picked rows holds them for every table. */
  lemma SnapshotTables(current: Tables, failed: set<TableName>, m: Tables)
    requires forall t: TableName :: t in current && t in m
    requires m[Farms] == Picked(current, failed, Farms) && m[Agents] == Picked(current, failed, Agents)
    requires m[Vouchers] == Picked(current, failed, Vouchers) && m[Bills] == Picked(current, failed, Bills)
    requires m[CuttingSchedules] == Picked(current, failed, CuttingSchedules)
    requires m[LedgerEntries] == Picked(current, failed, LedgerEntries)
    ensures forall t: TableName :: m[t] == Picked(current, failed, t)
  {
    forall t: TableName
      ensures m[t] == Picked(current, failed, t)
    {
      match t
      case Farms =>
      case Agents =>
      case Vouchers =>
      case Bills =>
      case CuttingSchedules =>
      case LedgerEntries =>
    }
  }

  /** The six tables and the calls made on them. */
  class Store {
    var tables: Tables
    /** Every delete and insert the pages called, oldest first. */
    var log: seq<StoreOp>

    ghost predicate Valid()
      reads this
    {
      forall t: TableName :: t in tables
    }

    constructor (initial: Tables)
      requires forall t: TableName :: t in initial
      ensures Valid() && tables == initial && log == []
    {
      tables := initial;
      log := [];
    }

    /** `from(t).select('*')`: the rows, or no data when the store fails. */
    method Select(t: TableName, fails: bool) returns (data: Option<seq<Row>>)
      requires Valid()
      ensures data == if fails then None else Some(tables[t])
    {
      if fails {
        return None;
      }
      return Some(tables[t]);
    }

    /** `from(t).delete().neq('id', NilId)`. */
    method DeleteNonNil(t: TableName)
      requires Valid()
      modifies this
      ensures Valid()
      ensures tables == old(tables)[t := NilRows(old(tables)[t])]
      ensures log == old(log) + [DeleteOp(t)]
    {
      tables := tables[t := NilRows(tables[t])];
      log := log + [DeleteOp(t)];
    }

    /** `from(t).insert(rows)`; a refused insert changes no table. */
    method Insert(t: TableName, rows: seq<Row>, refused: bool)
      requires Valid()
      modifies this
      ensures Valid()
      ensures tables == if refused then old(tables) else old(tables)[t := old(tables)[t] + rows]
      ensures log == old(log) + [InsertOp(t, |rows|)]
    {
      if !refused {
        tables := tables[t := tables[t] + rows];
      }
      log := log + [InsertOp(t, |rows|)];
    }
  }

  class BackupPage {
    const store: Store
    var resetConfirmation: string

    constructor (s: Store)
      ensures store == s && resetConfirmation == ""
    {
      store := s;
      resetConfirmation := "";
    }

    /** Typing into the confirmation box. */
    method SetConfirmation(text: string)
      modifies this
      ensures resetConfirmation == text
    {
      resetConfirmation := text;
    }

    /** The backup document: exactly the six tables, each the table's rows, or empty when
        its select failed. Nothing in the store changes. */
    method MakeBackup(timestamp: string, failed: set<TableName>) returns (doc: BackupDoc)
      requires store.Valid()
      ensures doc.timestamp == timestamp && doc.tables.Some?
      ensures forall t: TableName ::
                t in doc.tables.value && doc.tables.value[t] == Picked(store.tables, failed, t)
    {
      var farms := store.Select(Farms, Farms in failed);
      var agents := store.Select(Agents, Agents in failed);
      var vouchers := store.Select(Vouchers, Vouchers in failed);
      var bills := store.Select(Bills, Bills in failed);
      var cutting := store.Select(CuttingSchedules, CuttingSchedules in failed);
      var ledger := store.Select(LedgerEntries, LedgerEntries in failed);
      var tables := TablesOf(farms.GetOr([]), agents.GetOr([]), vouchers.GetOr([]), bills.GetOr([]),
                             cutting.GetOr([]), ledger.GetOr([]));
      SnapshotTables(store.tables, failed, tables);
      doc := BackupDoc(timestamp, Some(tables));
    }

    /** One of the deletes of a reset or a restore. */
    method ClearTable(t: TableName)
      requires store.Valid()
      modifies store
      ensures store.Valid()
      ensures forall u: TableName ::
                store.tables[u] == if u == t then NilRows(old(store.tables)[t]) else old(store.tables)[u]
      ensures store.log == old(store.log) + [DeleteOp(t)]
    {
      store.DeleteNonNil(t);
    }

    /** The six deletes, dependents first. */
    method ClearTables()
      requires store.Valid()
      modifies store
      ensures store.Valid()
      ensures forall t: TableName :: store.tables[t] == NilRows(old(store.tables)[t])
      ensures store.log == old(store.log) + DeleteLog
    {
      ghost var t0, log0 := store.tables, store.log;
      ClearTable(LedgerEntries);
      ghost var done := [DeleteOp(LedgerEntries)];
      ClearTable(Bills);
      AppendAssoc(log0, done, [DeleteOp(Bills)]);
      done := done + [DeleteOp(Bills)];
      ClearTable(Vouchers);
      AppendAssoc(log0, done, [DeleteOp(Vouchers)]);
      done := done + [DeleteOp(Vouchers)];
      ClearTable(CuttingSchedules);
      AppendAssoc(log0, done, [DeleteOp(CuttingSchedules)]);
      done := done + [DeleteOp(CuttingSchedules)];
      ClearTable(Agents);
      AppendAssoc(log0, done, [DeleteOp(Agents)]);
      done := done + [DeleteOp(Agents)];
      ClearTable(Farms);
      AppendAssoc(log0, done, [DeleteOp(Farms)]);
      forall t: TableName
        ensures store.tables[t] == NilRows(t0[t])
      {
        match t
        case Farms =>
        case Agents =>
        case Vouchers =>
        case Bills =>
        case CuttingSchedules =>
        case LedgerEntries =>
      }
    }

    /** One of the conditional inserts of a restore. */
    method RestoreTable(m: Tables, t: TableName, refused: set<TableName>)
      requires store.Valid()
      modifies store
      ensures store.Valid()
      ensures forall u: TableName ::
                store.tables[u] == if u == t then old(store.tables)[t] + Added(m, t, refused) else old(store.tables)[u]
      ensures store.log == old(store.log) + InsertStep(m, t)
    {
      var rows := BackupArray(m, t);
      if |rows| > 0 {
        store.Insert(t, rows, t in refused);
      } else {
        assert store.log + [] == store.log;
      }
      if Added(m, t, refused) == [] {
        assert old(store.tables)[t] + [] == old(store.tables)[t];
      }
    }

    /** The six conditional inserts, in the page's order. */
    method InsertTables(m: Tables, refused: set<TableName>)
      requires store.Valid()
      modifies store
      ensures store.Valid()
      ensures forall t: TableName :: store.tables[t] == old(store.tables)[t] + Added(m, t, refused)
      ensures store.log == old(store.log) + InsertLog(m)
    {
      ghost var t0, log0 := store.tables, store.log;
      RestoreTable(m, Farms, refused);
      ghost var done := InsertStep(m, Farms);
      RestoreTable(m, Agents, refused);
      AppendAssoc(log0, done, InsertStep(m, Agents));
      done := done + InsertStep(m, Agents);
      RestoreTable(m, Vouchers, refused);
      AppendAssoc(log0, done, InsertStep(m, Vouchers));
      done := done + InsertStep(m, Vouchers);
      RestoreTable(m, Bills, refused);
      AppendAssoc(log0, done, InsertStep(m, Bills));
      done := done + InsertStep(m, Bills);
      RestoreTable(m, CuttingSchedules, refused);
      AppendAssoc(log0, done, InsertStep(m, CuttingSchedules));
      done := done + InsertStep(m, CuttingSchedules);
      RestoreTable(m, LedgerEntries, refused);
      AppendAssoc(log0, done, InsertStep(m, LedgerEntries));
      forall t: TableName
        ensures store.tables[t] == t0[t] + Added(m, t, refused)
      {
        match t
        case Farms =>
        case Agents =>
        case Vouchers =>
        case Bills =>
        case CuttingSchedules =>
        case LedgerEntries =>
      }
    }

    /** A file that does not parse, or a document without `tables`, is refused before any
        delete. Otherwise every table is emptied but for its nil-UUID rows, then each
        non-empty array is inserted; the store's insert errors are not checked, so a
        refused table stays empty and the restore still reports success. */
    method Restore(parsed: Option<BackupDoc>, refused: set<TableName>) returns (ok: bool)
      requires store.Valid()
      modifies store
      ensures store.Valid()
      ensures ok <==> parsed.Some? && parsed.value.tables.Some?
      ensures !ok ==> store.tables == old(store.tables) && store.log == old(store.log)
      ensures ok ==>
                var m := parsed.value.tables.value;
                && store.log == old(store.log) + DeleteLog + InsertLog(m)
                && forall t: TableName :: store.tables[t] == Restored(old(store.tables)[t], m, t, refused)
    {
      if parsed.None? || parsed.value.tables.None? {
        return false;
      }
      var m := parsed.value.tables.value;
      ClearTables();
      InsertTables(m, refused);
      return true;
    }

    /** Unless the confirmation reads exactly "RESET DATABASE", nothing happens. Otherwise
        the six tables are emptied, dependents first, and the confirmation is cleared. */
    method Reset() returns (ok: bool)
      requires store.Valid()
      modifies this, store
      ensures store.Valid()
      ensures ok <==> old(resetConfirmation) == ResetPhrase
      ensures !ok ==> store.tables == old(store.tables) && store.log == old(store.log)
                      && resetConfirmation == old(resetConfirmation)
      ensures ok ==> && store.log == old(store.log) + DeleteLog
                     && (forall t: TableName :: store.tables[t] == NilRows(old(store.tables)[t]))
                     && resetConfirmation == ""
    {
      if resetConfirmation != ResetPhrase {
        return false;
      }
      ClearTables();
      resetConfirmation := "";
      return true;
    }
  }
}
