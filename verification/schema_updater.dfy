/**
 The schema migration at start-up: each configured database is brought to the schema version by
 running a script inside one transaction.

 A database is a value of a type `D` that nothing looks into; what a statement does to it and what
 version it records are parameters, as are the files and whether opening, beginning and committing succeed.
 */
module SchemaUpdater {
  import opened Common

  const SCHEMA_VERSION: int := 1

  /** `version`: the version in the first row of the version query; None if the query fails or finds no row. */
  datatype Engine<!D> = Engine(empty: D, exec: (D, string) -> Option<D>, version: D -> Option<int>)

  datatype World = World(opens: string -> bool, begins: string -> bool, commits: string -> bool,
                         file: string -> Option<string>)

  datatype Conf = Conf(path: string, sqlPath: string)

  // ------------------------------------------------------------ the script

  const SEPARATOR: char := ';'

  predicate IsBlank(stmt: string) { forall c | c in stmt :: c in " \t\n\r" }

  /** The text cut at every semicolon. */
  function Split(text: string): seq<string> {
    if text == "" then [""] else
      var more := Split(text[1..]);
      if text[0] == SEPARATOR then [""] + more else [[text[0]] + more[0]] + more[1..]
  }

  function Join(parts: seq<string>): string
    requires parts != []
  {
    if |parts| == 1 then parts[0] else parts[0] + ([SEPARATOR] + Join(parts[1..]))
  }

  /** The cut loses nothing, and no piece holds a semicolon. */
  lemma {:induction false} SplitJoins(text: string)
    ensures Join(Split(text)) == text
    ensures forall part | part in Split(text) :: SEPARATOR !in part
    decreases |text|
  {
    if text != "" {
      SplitJoins(text[1..]);
      var more := Split(text[1..]);
      assert text == [text[0]] + text[1..];
      JoinFirst(text[0], more);
    }
  }

  lemma JoinCons(head: string, tail: seq<string>)
    ensures Join([head] + tail) == if tail == [] then head else head + ([SEPARATOR] + Join(tail))
  {
    assert ([head] + tail)[1..] == tail;
  }

  lemma JoinFirst(c: char, more: seq<string>)
    requires more != []
    ensures Join([""] + more) == [SEPARATOR] + Join(more)
    ensures Join([[c] + more[0]] + more[1..]) == [c] + Join(more)
  {
    hide Join;
    var head, tail := more[0], more[1..];
    assert more == [head] + tail;
    JoinCons("", more);
    JoinCons(head, tail);
    JoinCons([c] + head, tail);
    if tail != [] {
      var rest := [SEPARATOR] + Join(tail);
      assert ([c] + head) + rest == [c] + (head + rest);
    }
  }

  /** The statements to run: those that are not blank, each with its semicolon back. */
  function Statements(parts: seq<string>): seq<string> {
    if parts == [] then [] else
      (if IsBlank(parts[0]) then [] else [parts[0] + [SEPARATOR]]) + Statements(parts[1..])
  }

  /** Some character of the piece is neither blank, tab nor line end. */
  predicate IsVisible(part: string) {
    exists i | 0 <= i < |part| :: part[i] != ' ' && part[i] != '\t' && part[i] != '\n' && part[i] != '\r'
  }

  /**
   The statements of a script are its visible pieces and no others, each with its semicolon back, in order: what holds of
   one piece holds of a script cut anywhere.
   */
  lemma {:induction false} StatementsAreVisiblePieces(parts: seq<string>, more: seq<string>, part: string)
    ensures Statements([]) == []
    ensures Statements([part]) == if IsVisible(part) then [part + ";"] else []
    ensures Statements(parts + more) == Statements(parts) + Statements(more)
    decreases |parts|
  {
    assert [part][1..] == [];
    if IsVisible(part) {
      var i :| 0 <= i < |part| && part[i] != ' ' && part[i] != '\t' && part[i] != '\n' && part[i] != '\r';
      assert part[i] in part && part[i] !in " \t\n\r";
    } else {
      forall c | c in part
        ensures c in " \t\n\r"
      {
        var i :| 0 <= i < |part| && part[i] == c;
        var blanks := " \t\n\r";
        assert c == blanks[0] || c == blanks[1] || c == blanks[2] || c == blanks[3];
      }
    }
    if parts == [] {
      assert parts + more == more;
    } else {
      assert (parts + more)[1..] == parts[1..] + more;
      StatementsAreVisiblePieces(parts[1..], more, part);
    }
  }

  datatype Ran<D> = Ran(db: D, ok: bool)

  /** Statements in order, up to the first that fails. */
  function RunAll<D>(e: Engine<D>, db: D, stmts: seq<string>): Ran<D>
    decreases |stmts|
  {
    if stmts == [] then Ran(db, true) else
      match e.exec(db, stmts[0])
      case None => Ran(db, false)
      case Some(next) => RunAll(e, next, stmts[1..])
  }

  // ------------------------------------------------------------ one database

  /** A C++ int from a 64-bit column. */
  function ToInt(v: int): int { (v + 0x8000_0000) % 0x1_0000_0000 - 0x8000_0000 }

  function Recorded<D>(e: Engine<D>, db: D): int {
    match e.version(db) case None => 0 case Some(v) => v
  }

  /** The check after the script compares the full 64-bit value. */
  predicate IsCurrent<D>(e: Engine<D>, db: D) {
    e.version(db).Some? && e.version(db).value >= SCHEMA_VERSION
  }

  function MigrateOne<D>(e: Engine<D>, w: World, conf: Conf, db: D): D {
    if !w.opens(conf.path) || ToInt(Recorded(e, db)) >= SCHEMA_VERSION then db else
      match w.file(conf.sqlPath)
      case None => db
      case Some(text) =>
        var r := RunAll(e, db, Statements(Split(text)));
        if !w.begins(conf.path) then r.db
        else if r.ok && IsCurrent(e, r.db) && w.commits(conf.path) then r.db
        else db
  }

  /** An open database: what is on disk, what this connection sees, and whether a transaction is open. */
  class Connection<D> {
    const e: Engine<D>
    var committed: D
    var working: D
    var inTransaction: bool

    constructor (e: Engine<D>, db: D)
      ensures this.e == e && committed == db && working == db && !inTransaction
    {
      this.e, committed, working, inTransaction := e, db, db, false;
    }

    method Begin(ok: bool)
      requires !inTransaction
      modifies `inTransaction
      ensures inTransaction == ok
    {
      inTransaction := ok;
    }

    method Exec(stmt: string) returns (ok: bool)
      modifies `committed, `working
      ensures ok == e.exec(old(working), stmt).Some?
      ensures working == if ok then e.exec(old(working), stmt).value else old(working)
      ensures committed == if inTransaction then old(committed) else if ok then working else old(committed)
    {
      match e.exec(working, stmt) {
        case None => ok := false;
        case Some(next) =>
          ok := true;
          working := next;
          if !inTransaction { committed := next; }
      }
    }

    method Rollback()
      modifies `working, `inTransaction
      ensures !inTransaction
      ensures working == if old(inTransaction) then committed else old(working)
    {
      if inTransaction {
        working := committed;
        inTransaction := false;
      }
    }

    method Commit(ok: bool)
      modifies `committed, `inTransaction
      ensures committed == if old(inTransaction) && ok then working else old(committed)
    {
      if inTransaction && ok {
        committed := working;
        inTransaction := false;
      }
    }
  }

  lemma StatementsOne<D>(e: Engine<D>, db: D, parts: seq<string>, i: nat)
    requires i < |parts|
    ensures RunAll(e, db, Statements(parts[i..])) ==
            if IsBlank(parts[i]) then RunAll(e, db, Statements(parts[i + 1..]))
            else match e.exec(db, parts[i] + [SEPARATOR])
                 case None => Ran(db, false)
                 case Some(next) => RunAll(e, next, Statements(parts[i + 1..]))
  {
    assert parts[i..][1..] == parts[i + 1..];
    var more := Statements(parts[i + 1..]);
    if IsBlank(parts[i]) {
      assert [] + more == more;
    } else {
      assert ([parts[i] + [SEPARATOR]] + more)[1..] == more;
    }
  }

  /** The loop over the pieces of the script. */
  method RunScript<D>(c: Connection<D>, parts: seq<string>) returns (success: bool)
    requires !c.inTransaction ==> c.committed == c.working
    modifies c`committed, c`working
    ensures Ran(c.working, success) == RunAll(c.e, old(c.working), Statements(parts))
    ensures c.committed == if c.inTransaction then old(c.committed) else c.working
  {
    success := true;
    var i := 0;
    assert parts[0..] == parts;
    while i < |parts|
      invariant 0 <= i <= |parts|
      invariant RunAll(c.e, old(c.working), Statements(parts)) == RunAll(c.e, c.working, Statements(parts[i..]))
      invariant c.committed == if c.inTransaction then old(c.committed) else c.working
    {
      StatementsOne(c.e, c.working, parts, i);
      var stmt := parts[i];
      i := i + 1;
      if !IsBlank(stmt) {
        var ok := c.Exec(stmt + [SEPARATOR]);
        if !ok { return false; }
      }
    }
  }

  /** The body of the loop over databases; what is left uncommitted is lost when the connection closes. */
  method UpdateDatabase<D>(e: Engine<D>, w: World, conf: Conf, db: D) returns (after: D)
    ensures after == MigrateOne(e, w, conf, db)
  {
    if !w.opens(conf.path) { return db; }
    var c := new Connection(e, db);
    var current := 0;
    match e.version(c.working) {
      case None =>
      case Some(v) => current := ToInt(v);
    }
    if current < SCHEMA_VERSION {
      var file := w.file(conf.sqlPath);
      if file.None? { return c.committed; }
      c.Begin(w.begins(conf.path));
      var success := RunScript(c, Split(file.value));
      if !success {
        c.Rollback();
        return c.committed;
      }
      var found := e.version(c.working);
      if found.None? || found.value < SCHEMA_VERSION {
        c.Rollback();
        return c.committed;
      }
      c.Commit(w.commits(conf.path));
    }
    return c.committed;
  }

  // ------------------------------------------------------------ all databases

  function Read<D>(e: Engine<D>, dbs: map<string, D>, path: string): D {
    if path in dbs then dbs[path] else e.empty
  }

  /** What the configured entries for one path do to the database there, whatever the others do. */
  function MigratePath<D>(e: Engine<D>, w: World, confs: seq<Conf>, path: string, db: D): D
    decreases |confs|
  {
    if confs == [] then db
    else MigratePath(e, w, confs[1..], path, if confs[0].path == path then MigrateOne(e, w, confs[0], db) else db)
  }

  lemma {:induction false} MigratePathMore<D>(e: Engine<D>, w: World, confs: seq<Conf>, conf: Conf, path: string, db: D)
    ensures MigratePath(e, w, confs + [conf], path, db) ==
            var d := MigratePath(e, w, confs, path, db);
            if conf.path == path then MigrateOne(e, w, conf, d) else d
    decreases |confs|
  {
    hide MigrateOne;
    if confs == [] {
      assert confs + [conf] == [conf] && [conf][1..] == [];
    } else {
      assert (confs + [conf])[1..] == confs[1..] + [conf];
      var d := if confs[0].path == path then MigrateOne(e, w, confs[0], db) else db;
      MigratePathMore(e, w, confs[1..], conf, path, d);
    }
  }

  /** `migrate`: each database ends as its own entries make it, so a failure in one changes no other. */
  method Migrate<D>(e: Engine<D>, w: World, confs: seq<Conf>, dbs: map<string, D>) returns (after: map<string, D>)
    ensures forall path :: Read(e, after, path) == MigratePath(e, w, confs, path, Read(e, dbs, path))
  {
    after := dbs;
    var i := 0;
    while i < |confs|
      invariant 0 <= i <= |confs|
      invariant forall path :: Read(e, after, path) == MigratePath(e, w, confs[..i], path, Read(e, dbs, path))
    {
      forall path
        ensures MigratePath(e, w, confs[..i + 1], path, Read(e, dbs, path)) ==
                var d := MigratePath(e, w, confs[..i], path, Read(e, dbs, path));
                if confs[i].path == path then MigrateOne(e, w, confs[i], d) else d
      {
        assert confs[..i + 1] == confs[..i] + [confs[i]];
        MigratePathMore(e, w, confs[..i], confs[i], path, Read(e, dbs, path));
      }
      var conf := confs[i];
      var path := conf.path;
      var db := UpdateDatabase(e, w, conf, if path in after then after[path] else e.empty);
      after := after[path := db];
      i := i + 1;
    }
    assert confs[..|confs|] == confs;
  }

  // ------------------------------------------------------------ what a migration promises

  /** The script run from `db`: where it stops, and whether every statement succeeded. */
  function ScriptRun<D>(e: Engine<D>, w: World, conf: Conf, db: D): Ran<D>
    requires w.file(conf.sqlPath).Some?
  {
    RunAll(e, db, Statements(Split(w.file(conf.sqlPath).value)))
  }

  /** All statements of the script were applied, in order, and the version is current. */
  ghost predicate Migrated<D>(e: Engine<D>, w: World, conf: Conf, db: D, after: D) {
    w.file(conf.sqlPath).Some? && ScriptRun(e, w, conf, db) == Ran(after, true) && IsCurrent(e, after)
  }

  /** The script changes something and then a statement fails, or the version it leaves is not current. */
  ghost predicate ScriptFallsShort<D>(e: Engine<D>, w: World, conf: Conf, db: D) {
    w.file(conf.sqlPath).Some? &&
    var r := ScriptRun(e, w, conf, db);
    !(r.ok && IsCurrent(e, r.db)) && r.db != db
  }

  /**
   One database is left as it was or fully migrated, exactly when it is not the case that it is opened, its version is
   below the schema version, no transaction begins, and the script falls short.
   */
  lemma AllOrNothing<D>(e: Engine<D>, w: World, conf: Conf, db: D)
    ensures (MigrateOne(e, w, conf, db) == db || Migrated(e, w, conf, db, MigrateOne(e, w, conf, db)))
       <==> !(w.opens(conf.path) && NeedsUpdate(Recorded(e, db)) && !w.begins(conf.path) && ScriptFallsShort(e, w, conf, db))
  {
  }

  /** The guard of the migration: the recorded version, as the code reads it, is below the schema version. */
  predicate NeedsUpdate(v: int) { ToInt(v) < SCHEMA_VERSION }

  /**
   The statements of the script were applied, in order, up to the n-th, which fails if it is not the end; if the
   transaction began, all of them, and the version is current.
   */
  ghost predicate Applied<D>(e: Engine<D>, w: World, conf: Conf, db: D, after: D, n: nat) {
    w.file(conf.sqlPath).Some? &&
    var stmts := Statements(Split(w.file(conf.sqlPath).value));
    && n <= |stmts| && RunAll(e, db, stmts[..n]) == Ran(after, true)
    && (n < |stmts| ==> e.exec(after, stmts[n]).None?)
    && (w.begins(conf.path) ==> n == |stmts| && IsCurrent(e, after))
  }

  /** Where a script stops, every statement before has succeeded. */
  lemma {:induction false} RanPrefix<D>(e: Engine<D>, db: D, stmts: seq<string>) returns (n: nat)
    ensures n <= |stmts| && RunAll(e, db, stmts[..n]) == Ran(RunAll(e, db, stmts).db, true)
    ensures if RunAll(e, db, stmts).ok then n == |stmts|
            else n < |stmts| && e.exec(RunAll(e, db, stmts).db, stmts[n]).None?
    decreases |stmts|
  {
    n := 0;
    if stmts != [] && e.exec(db, stmts[0]).Some? {
      var k := RanPrefix(e, e.exec(db, stmts[0]).value, stmts[1..]);
      n := k + 1;
      assert stmts[..n][1..] == stmts[1..][..k];
    }
  }

  lemma OneIsApplied<D>(e: Engine<D>, w: World, conf: Conf, db: D) returns (n: nat)
    ensures var after := MigrateOne(e, w, conf, db);
            after == db || Applied(e, w, conf, db, after, n)
  {
    n := 0;
    if w.file(conf.sqlPath).Some? {
      var stmts := Statements(Split(w.file(conf.sqlPath).value));
      n := RanPrefix(e, db, stmts);
      assert stmts[..|stmts|] == stmts;
    }
  }

  /** `db` after the scripts of some of the entries of `confs` for `path`, one after the other. */
  ghost predicate AppliedBySome<D(!new)>(e: Engine<D>, w: World, confs: seq<Conf>, path: string, db: D, after: D)
    decreases |confs|
  {
    if confs == [] then after == db else
      || AppliedBySome(e, w, confs[1..], path, db, after)
      || (confs[0].path == path
          && exists mid, n :: Applied(e, w, confs[0], db, mid, n) && AppliedBySome(e, w, confs[1..], path, mid, after))
  }

  /**
   Main result. For every list of entries and every script, each database ends unchanged or after scripts of entries
   of its own, the statements that are not blank applied in order: all of them and the version
   current, or, where no transaction began, those up to the first that fails.
   */
  lemma {:induction false} EveryDatabase<D(!new)>(e: Engine<D>, w: World, confs: seq<Conf>, path: string, db: D)
    ensures AppliedBySome(e, w, confs, path, db, MigratePath(e, w, confs, path, db))
    decreases |confs|
  {
    hide MigrateOne, Applied;
    if confs != [] {
      var after := MigratePath(e, w, confs, path, db);
      if confs[0].path == path {
        var n := OneIsApplied(e, w, confs[0], db);
        var mid := MigrateOne(e, w, confs[0], db);
        EveryDatabase(e, w, confs[1..], path, mid);
        if mid != db {
          assert Applied(e, w, confs[0], db, mid, n) && AppliedBySome(e, w, confs[1..], path, mid, after);
        }
      } else {
        EveryDatabase(e, w, confs[1..], path, db);
      }
    }
  }

  /** In the range of a C++ int the guard reads the version as it is. */
  lemma GuardIsExact(v: int)
    ensures ToInt(v) == v <==> -0x8000_0000 <= v < 0x8000_0000
  {
  }

  /** What the script did stays: no transaction began, or it is committed with the version current. */
  predicate Kept<D>(e: Engine<D>, w: World, conf: Conf, db: D) {
    && w.opens(conf.path) && NeedsUpdate(Recorded(e, db)) && w.file(conf.sqlPath).Some?
    && var r := ScriptRun(e, w, conf, db);
       !w.begins(conf.path) || (r.ok && IsCurrent(e, r.db) && w.commits(conf.path))
  }

  /** An entry leaves what its script did if that is kept, and its database as it was if not. */
  lemma KeptOrUndone<D>(e: Engine<D>, w: World, conf: Conf, db: D)
    ensures Kept(e, w, conf, db) ==> MigrateOne(e, w, conf, db) == ScriptRun(e, w, conf, db).db
    ensures !Kept(e, w, conf, db) ==> MigrateOne(e, w, conf, db) == db
  {
  }

  /**
   The recorded version goes down exactly when a script that leaves a lower one is kept; if a transaction begins,
   only when it is a newer version that the guard misreads.
   */
  lemma VersionNeverDecreases<D>(e: Engine<D>, w: World, conf: Conf, db: D)
    ensures Recorded(e, db) <= Recorded(e, MigrateOne(e, w, conf, db)) <==>
              !(Kept(e, w, conf, db) && Recorded(e, ScriptRun(e, w, conf, db).db) < Recorded(e, db))
    ensures w.begins(conf.path) && (Recorded(e, db) <= SCHEMA_VERSION || !NeedsUpdate(Recorded(e, db))) ==>
              Recorded(e, db) <= Recorded(e, MigrateOne(e, w, conf, db))
  {
  }

  /**
   A second run, in the same circumstances, changes something exactly when its script does and is kept; if a transaction
   begins, only when the guard misreads what the first run recorded.
   */
  lemma SecondRunChangesNothing<D>(e: Engine<D>, w: World, conf: Conf, db: D)
    ensures var after := MigrateOne(e, w, conf, db);
            MigrateOne(e, w, conf, after) == after <==>
              !(Kept(e, w, conf, after) && ScriptRun(e, w, conf, after).db != after)
    ensures var after := MigrateOne(e, w, conf, db);
            w.begins(conf.path) && (after == db || !NeedsUpdate(Recorded(e, after))) ==>
              MigrateOne(e, w, conf, after) == after
  {
  }

  // ------------------------------------------------------------ whole lists

  /** Every version a database can record is in the range of a C++ int. */
  ghost predicate VersionsFit<D(!new)>(e: Engine<D>) {
    forall db :: -0x8000_0000 <= Recorded(e, db) < 0x8000_0000
  }

  lemma FirstRunIsCurrent<D(!new)>(e: Engine<D>, w: World, conf: Conf, db: D)
    requires w.begins(conf.path) && VersionsFit(e)
    ensures var after := MigrateOne(e, w, conf, db);
            after == db || !NeedsUpdate(Recorded(e, after))
  {
    AllOrNothing(e, w, conf, db);
    GuardIsExact(Recorded(e, MigrateOne(e, w, conf, db)));
  }

  lemma {:induction false} CurrentStays<D>(e: Engine<D>, w: World, confs: seq<Conf>, path: string, db: D)
    requires !NeedsUpdate(Recorded(e, db))
    ensures MigratePath(e, w, confs, path, db) == db
    decreases |confs|
  {
    if confs != [] { CurrentStays(e, w, confs[1..], path, db); }
  }

  lemma {:induction false} FirstPassIsCurrent<D(!new)>(e: Engine<D>, w: World, confs: seq<Conf>, path: string, db: D)
    requires w.begins(path) && VersionsFit(e)
    ensures var after := MigratePath(e, w, confs, path, db);
            after == db || !NeedsUpdate(Recorded(e, after))
    decreases |confs|
  {
    hide MigrateOne, NeedsUpdate, VersionsFit;
    if confs != [] {
      var d := if confs[0].path == path then MigrateOne(e, w, confs[0], db) else db;
      if confs[0].path == path { FirstRunIsCurrent(e, w, confs[0], db); }
      FirstPassIsCurrent(e, w, confs[1..], path, d);
      if !NeedsUpdate(Recorded(e, d)) { CurrentStays(e, w, confs[1..], path, d); }
    }
  }

  /** The entry's file can be read and has a statement. */
  predicate HasScript(w: World, conf: Conf) {
    w.file(conf.sqlPath).Some? && Statements(Split(w.file(conf.sqlPath).value)) != []
  }

  /** No script of the list runs on this database outside a transaction. */
  predicate Guarded(w: World, confs: seq<Conf>, path: string) {
    w.begins(path) || !w.opens(path) || forall i | 0 <= i < |confs| && confs[i].path == path :: !HasScript(w, confs[i])
  }

  lemma {:induction false} NothingToRun<D>(e: Engine<D>, w: World, confs: seq<Conf>, path: string, db: D)
    requires Guarded(w, confs, path) && !w.begins(path)
    ensures MigratePath(e, w, confs, path, db) == db
    decreases |confs|
  {
    if confs != [] {
      assert confs[0].path == path && w.opens(path) ==> !HasScript(w, confs[0]);
      NothingToRun(e, w, confs[1..], path, db);
    }
  }

  lemma {:induction false} VersionsGrowInTransactions<D(!new)>(e: Engine<D>, w: World, confs: seq<Conf>, path: string, db: D)
    requires w.begins(path) && VersionsFit(e)
    ensures Recorded(e, db) <= Recorded(e, MigratePath(e, w, confs, path, db))
    decreases |confs|
  {
    hide MigrateOne;
    if confs != [] {
      var d := if confs[0].path == path then MigrateOne(e, w, confs[0], db) else db;
      if confs[0].path == path {
        GuardIsExact(Recorded(e, db));
        VersionNeverDecreases(e, w, confs[0], db);
      }
      VersionsGrowInTransactions(e, w, confs[1..], path, d);
    }
  }

  /** With versions in that range, no list whose scripts run in transactions lowers a recorded version. */
  lemma VersionsOnlyGrow<D(!new)>(e: Engine<D>, w: World, confs: seq<Conf>, path: string, db: D)
    requires Guarded(w, confs, path) && VersionsFit(e)
    ensures Recorded(e, db) <= Recorded(e, MigratePath(e, w, confs, path, db))
  {
    hide MigratePath, VersionsFit, Guarded;
    if w.begins(path) {
      VersionsGrowInTransactions(e, w, confs, path, db);
    } else {
      NothingToRun(e, w, confs, path, db);
    }
  }

  /** With versions in that range, a second run of any list whose scripts run in transactions changes nothing. */
  lemma SecondRunOfAll<D(!new)>(e: Engine<D>, w: World, confs: seq<Conf>, path: string, db: D)
    requires Guarded(w, confs, path) && VersionsFit(e)
    ensures var after := MigratePath(e, w, confs, path, db);
            MigratePath(e, w, confs, path, after) == after
  {
    hide MigratePath, VersionsFit, NeedsUpdate, Guarded;
    var after := MigratePath(e, w, confs, path, db);
    if w.begins(path) {
      FirstPassIsCurrent(e, w, confs, path, db);
      if after != db { CurrentStays(e, w, confs, path, after); }
    } else {
      NothingToRun(e, w, confs, path, after);
    }
  }

  /** A database that counts the statements run on it, and records a lower version once one was run. */
  function Counting(): Engine<int> {
    Engine(0, (db: int, stmt: string) => Some(db + 1), (db: int) => Some(if db <= 0 then 0 else -1))
  }

  lemma {:induction false} CountingRun(db: int, stmts: seq<string>)
    ensures RunAll(Counting(), db, stmts) == Ran(db + |stmts|, true)
    decreases |stmts|
  {
    if stmts != [] { CountingRun(db + 1, stmts[1..]); }
  }

  lemma {:induction false} CountingPath(w: World, confs: seq<Conf>, path: string, db: int)
    requires !w.begins(path) && w.opens(path)
    ensures MigratePath(Counting(), w, confs, path, db) >= db
    ensures !Guarded(w, confs, path) ==> MigratePath(Counting(), w, confs, path, db) > db
    decreases |confs|
  {
    if confs != [] {
      var d := if confs[0].path == path then MigrateOne(Counting(), w, confs[0], db) else db;
      if w.file(confs[0].sqlPath).Some? { CountingRun(db, Statements(Split(w.file(confs[0].sqlPath).value))); }
      CountingPath(w, confs[1..], path, d);
      assert forall i | 0 < i < |confs| :: confs[i] == confs[1..][i - 1];
    }
  }

  /**
   The condition is exact: whenever a script of the list would run outside a transaction, there are statements, and versions
   in the range of an int, with which a run lowers the recorded version and a second run changes the database again.
   */
  lemma UnguardedGoesWrong(w: World, confs: seq<Conf>, path: string) returns (e: Engine<int>, db: int)
    requires !Guarded(w, confs, path)
    ensures VersionsFit(e)
    ensures var after := MigratePath(e, w, confs, path, db);
            Recorded(e, after) < Recorded(e, db) && MigratePath(e, w, confs, path, after) != after
  {
    e, db := Counting(), 0;
    CountingPath(w, confs, path, db);
    CountingPath(w, confs, path, MigratePath(e, w, confs, path, db));
  }

  // ------------------------------------------------------------ outside those conditions

  /** A database that is just its version; a statement is a function of it, undefined where it fails. */
  function Toy(step: int -> Option<int>): Engine<int> {
    Engine(0, (db: int, stmt: string) => step(db), (db: int) => Some(db))
  }

  function Calm(script: string, transactions: bool): World {
    World((p: string) => true, (p: string) => transactions, (p: string) => true, (p: string) => Some(script))
  }

  lemma SplitFirst(c: char, rest: string)
    ensures Split([c] + rest) ==
            if c == SEPARATOR then [""] + Split(rest) else [[c] + Split(rest)[0]] + Split(rest)[1..]
  {
    assert ([c] + rest)[1..] == rest;
  }

  lemma OneStatement()
    ensures Statements(Split("x")) == ["x;"]
  {
    SplitFirst('x', "");
    assert "x" == ['x'] + "" && 'x' in "x";
    assert Statements(["x"][1..]) == [];
    assert "x" + [SEPARATOR] == "x;";
  }

  lemma TwoParts()
    ensures Split("x;y") == ["x", "y"]
  {
    hide Split;
    EmptyPart();
    assert "y" == ['y'] + "" && ";y" == [';'] + "y" && "x;y" == ['x'] + ";y";
    SplitFirst('y', "");
    assert [""][1..] == [] && ['y'] + "" == "y";
    assert Split("y") == ["y"];
    SplitFirst(';', "y");
    assert Split(";y") == ["", "y"];
    SplitFirst('x', ";y");
    assert ["", "y"][1..] == ["y"] && ['x'] + "" == "x";
  }

  lemma EmptyPart()
    ensures Split("") == [""]
  {
  }

  lemma TwoStatements()
    ensures Statements(Split("x;y")) == ["x;", "y;"]
  {
    hide Split;
    TwoParts();
    assert 'x' in "x" && 'y' in "y";
    var parts := ["x", "y"];
    assert parts[1..] == ["y"] && ["y"][1..] == [];
    assert Statements(["y"]) == ["y" + [SEPARATOR]];
    assert "x" + [SEPARATOR] == "x;" && "y" + [SEPARATOR] == "y;";
  }

  /** Every version above the schema version that the guard misreads can be lowered, by a script that records 1. */
  lemma MisreadVersionMayDecrease(v: int, conf: Conf) returns (e: Engine<int>, w: World)
    requires v > SCHEMA_VERSION && NeedsUpdate(v)
    ensures w.begins(conf.path) && Recorded(e, v) == v
    ensures Recorded(e, MigrateOne(e, w, conf, v)) < v
  {
    e, w := Toy((db: int) => Some(1)), Calm("x", true);
    OneStatement();
    assert RunAll(e, v, ["x;"]) == Ran(1, true);
  }

  /** Every version the guard misreads, once recorded, makes the script run again in a second run. */
  lemma MisreadVersionRunsAgain(v: int, conf: Conf) returns (e: Engine<int>, w: World, db: int)
    requires v >= SCHEMA_VERSION && NeedsUpdate(v)
    ensures w.begins(conf.path)
    ensures Recorded(e, MigrateOne(e, w, conf, db)) == v
    ensures MigrateOne(e, w, conf, MigrateOne(e, w, conf, db)) != MigrateOne(e, w, conf, db)
  {
    e, w, db := Toy((d: int) => Some(if d == 0 then v else v + 1)), Calm("x", true), 0;
    OneStatement();
    assert RunAll(e, 0, ["x;"]) == Ran(v, true);
    assert RunAll(e, v, ["x;"]) == Ran(v + 1, true);
  }

  /** Such versions exist: 2 to the 32 reads back as 0. */
  lemma AMisreadVersion()
    ensures 0x1_0000_0000 > SCHEMA_VERSION && NeedsUpdate(0x1_0000_0000)
  {
  }

  /** The result of `begin` is not looked at: without a transaction a failing script leaves what it did so far. */
  lemma NoTransactionNoRollback(conf: Conf) returns (e: Engine<int>, w: World, db: int)
    ensures !w.begins(conf.path)
    ensures MigrateOne(e, w, conf, db) != db && !Migrated(e, w, conf, db, MigrateOne(e, w, conf, db))
  {
    e, w, db := Toy((v: int) => if v == -1 then Some(0) else None), Calm("x;y", false), -1;
    TwoStatements();
    assert ["x;", "y;"][1..] == ["y;"];
    assert RunAll(e, 0, ["y;"]) == Ran(0, false);
    assert RunAll(e, db, ["x;", "y;"]) == Ran(0, false);
  }
}
