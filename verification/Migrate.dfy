/**
 * db/migrate.js: the migration runner.  A run may be interrupted before any of its statements; the
 * advisory lock keeps runs apart, and it is released with the connection.  A migration's SQL either
 * turns one schema into another or raises; each runs in a transaction of its own.
 */
module Migrate {
  import opened Wrappers
  import opened Json
  import opened KeyOrder

  type Name = JString
  type Sql = JString
  type Checksum = JString

  datatype File = File(version: Name, sql: Sql)

  /* ---- listMigrations ---- */

  predicate Digits(s: Name) { forall i :: 0 <= i < |s| ==> 48 <= s[i] < 58 }

  predicate Words(s: Name) { forall i :: 0 <= i < |s| ==> 97 <= s[i] <= 122 || 48 <= s[i] <= 57 || s[i] == 95 }

  /** The name pattern: digits, an underscore, words and ".sql". */
  predicate MigrationName(s: Name) {
    exists i :: 0 < i < |s| - 5 && s[i] == 95 && Digits(s[..i]) && Words(s[i + 1..|s| - 4])
                && s[|s| - 4..] == Js(".sql")
  }

  /** The digits a name begins with. */
  function Lead(s: Name): (n: nat)
    ensures n <= |s| && (forall i :: 0 <= i < n ==> 48 <= s[i] <= 57) && (n < |s| ==> !(48 <= s[n] <= 57))
  {
    if s == [] || !(48 <= s[0] <= 57) then 0 else 1 + Lead(s[1..])
  }

  predicate WordUnit(u: CodeUnit) { 97 <= u < 123 || 48 <= u < 58 || u == 95 }

  /** The words it goes on with. */
  function WordRun(s: Name): (n: nat)
    ensures n <= |s| && (forall i :: 0 <= i < n ==> WordUnit(s[i])) && (n < |s| ==> !WordUnit(s[n]))
  {
    if s == [] || !WordUnit(s[0]) then 0 else 1 + WordRun(s[1..])
  }

  /** The filter, from left to right: digits, an underscore, words, and what is left is the suffix. */
  predicate Passes(s: Name) {
    var n := Lead(s);
    n > 0 && n < |s| && s[n] == 95 && WordRun(s[n + 1..]) > 0 && s[n + 1..][WordRun(s[n + 1..])..] == Js(".sql")
  }

  lemma PassesNamed(s: Name)
    requires Passes(s)
    ensures MigrationName(s)
  {
    var n := Lead(s);
    var k := WordRun(s[n + 1..]);
    hide Lead, WordRun;
    assert |s| == n + 1 + k + 4;
    assert s[n + 1..][k..] == s[|s| - 4..];
    assert Digits(s[..n]);
    var words := s[n + 1..|s| - 4];
    forall j | 0 <= j < |words| ensures WordUnit(words[j]) { assert words[j] == s[n + 1..][j]; }
  }

  lemma FirstUnderscore(s: Name, i: nat)
    requires i < |s| && s[i] == 95 && Digits(s[..i])
    ensures Lead(s) == i
  {
    forall j | 0 <= j < i ensures 48 <= s[j] <= 57 { assert s[..i][j] == s[j]; }
    hide Lead;
  }

  lemma WordsEnd(s: Name, k: nat)
    requires k < |s| && s[k] == 46 && forall j :: 0 <= j < k ==> WordUnit(s[j])
    ensures WordRun(s) == k
  {
    hide WordRun;
  }

  lemma NamedPasses(s: Name, i: nat)
    requires 0 < i < |s| - 5 && s[i] == 95 && Digits(s[..i]) && Words(s[i + 1..|s| - 4]) && s[|s| - 4..] == Js(".sql")
    ensures Passes(s)
  {
    var rest, k := s[i + 1..], |s| - 5 - i;
    FirstUnderscore(s, i);
    hide Lead, WordRun;
    assert rest[k..] == s[|s| - 4..];
    assert rest[k] == s[|s| - 4..][0] == 46;
    forall j | 0 <= j < k ensures WordUnit(rest[j]) { assert rest[j] == s[i + 1..|s| - 4][j]; }
    WordsEnd(rest, k);
  }

  lemma PassesIff(s: Name)
    ensures Passes(s) <==> MigrationName(s)
  {
    if Passes(s) { PassesNamed(s); }
    if i :| 0 < i < |s| - 5 && s[i] == 95 && Digits(s[..i]) && Words(s[i + 1..|s| - 4]) && s[|s| - 4..] == Js(".sql") {
      NamedPasses(s, i);
    }
    hide Passes;
  }

  function InsertFile(f: File, fs: seq<File>): seq<File> {
    if fs == [] || KeyBefore(f.version, fs[0].version) then [f] + fs else [fs[0]] + InsertFile(f, fs[1..])
  }

  /** The migrations of a directory, in the order of their names. */
  function Listed(directory: seq<File>): seq<File> {
    if directory == [] then []
    else
      var rest := Listed(directory[1..]);
      if Passes(directory[0].version) then InsertFile(directory[0], rest) else rest
  }

  predicate DistinctNames(fs: seq<File>) { forall i, j :: 0 <= i < j < |fs| ==> fs[i].version != fs[j].version }

  /** Before it by code unit. */
  ghost predicate Earlier(a: File, b: File) { Precedes(a.version, b.version) }

  ghost predicate InOrder(fs: seq<File>) { forall i, j :: 0 <= i < j < |fs| ==> Earlier(fs[i], fs[j]) }

  lemma {:induction false} InsertFileKeeps(f: File, fs: seq<File>)
    ensures |InsertFile(f, fs)| == |fs| + 1
    ensures forall x :: x in InsertFile(f, fs) <==> x == f || x in fs
  {
    if fs != [] && !KeyBefore(f.version, fs[0].version) { InsertFileKeeps(f, fs[1..]); }
  }

  lemma InOrderCons(f: File, fs: seq<File>)
    requires InOrder(fs) && forall x :: x in fs ==> Earlier(f, x)
    ensures InOrder([f] + fs)
  {
  }

  lemma {:induction false} InsertFileInOrder(f: File, fs: seq<File>)
    requires InOrder(fs) && forall x :: x in fs ==> x.version != f.version
    ensures InOrder(InsertFile(f, fs))
  {
    if fs != [] {
      TotalOrder(f.version, fs[0].version, []);
      assert fs[0] in fs;
      if KeyBefore(f.version, fs[0].version) {
        forall x | x in fs ensures Earlier(f, x) {
          if x != fs[0] {
            assert Earlier(fs[0], x);
            PrecedesIff(fs[0].version, x.version);
            TotalOrder(f.version, fs[0].version, x.version);
          }
          PrecedesIff(f.version, x.version);
        }
        InOrderCons(f, fs);
      } else {
        InsertFileInOrder(f, fs[1..]);
        InsertFileKeeps(f, fs[1..]);
        PrecedesIff(fs[0].version, f.version);
        forall x | x in InsertFile(f, fs[1..]) ensures Earlier(fs[0], x) { }
        InOrderCons(fs[0], InsertFile(f, fs[1..]));
      }
    }
  }

  /** The listing holds exactly the directory's migrations, in strictly ascending order. */
  lemma {:induction false} ListedOk(directory: seq<File>)
    requires DistinctNames(directory)
    ensures InOrder(Listed(directory))
    ensures forall f :: f in Listed(directory) <==> f in directory && MigrationName(f.version)
  {
    if directory != [] {
      ListedOk(directory[1..]);
      PassesIff(directory[0].version);
      hide Passes, MigrationName;
      InsertFileKeeps(directory[0], Listed(directory[1..]));
      if MigrationName(directory[0].version) {
        forall x | x in Listed(directory[1..]) ensures x.version != directory[0].version {
          assert x in directory[1..];
        }
        InsertFileInOrder(directory[0], Listed(directory[1..]));
      }
    }
  }

  /** Files are only added, and each added migration sorts after every one already there. */
  ghost predicate GrowsAtEnd(before: seq<File>, after: seq<File>) {
    (forall f :: f in before ==> f in after)
    && forall f, g :: f in before && g in after && MigrationName(f.version) && MigrationName(g.version) && g !in before
         ==> Earlier(f, g)
  }

  lemma Irreflexive(f: File)
    ensures !Earlier(f, f)
  {
    PrecedesIff(f.version, f.version);
  }

  lemma SameFirst(a: seq<File>, b: seq<File>)
    requires InOrder(a) && InOrder(b) && a != []
    requires forall f :: f in a ==> f in b
    requires forall f, g :: f in a && g in b && g !in a ==> Earlier(f, g)
    ensures b != [] && a[0] == b[0]
  {
    assert a[0] in b;
    var x, y := a[0], b[0];
    assert x in b[1..] || x == y;
    assert Earlier(y, x) || x == y;
    assert y in a[1..] || x == y || y !in a;
    assert Earlier(x, y) || x == y;
    TotalOrder(x.version, y.version, []);
    PrecedesIff(x.version, y.version);
    PrecedesIff(y.version, x.version);
  }

  lemma {:induction false} OrderedPrefix(a: seq<File>, b: seq<File>)
    requires InOrder(a) && InOrder(b)
    requires forall f :: f in a ==> f in b
    requires forall f, g :: f in a && g in b && g !in a ==> Earlier(f, g)
    ensures |a| <= |b| && b[..|a|] == a
  {
    if a != [] {
      SameFirst(a, b);
      var x, y := a[0], b[0];
      Irreflexive(x);
      hide Earlier;
      forall f | f in a[1..] ensures f in b[1..] {
        assert Earlier(x, f) && f in b && f != y;
      }
      forall f, g | f in a[1..] && g in b[1..] && g !in a[1..] ensures Earlier(f, g) {
        assert Earlier(y, g);
      }
      OrderedPrefix(a[1..], b[1..]);
      assert a == [x] + a[1..] && b == [y] + b[1..];
    }
  }

  lemma ListedGrows(before: seq<File>, after: seq<File>)
    requires DistinctNames(before) && DistinctNames(after) && GrowsAtEnd(before, after)
    ensures |Listed(before)| <= |Listed(after)| && Listed(after)[..|Listed(before)|] == Listed(before)
  {
    ListedOk(before);
    ListedOk(after);
    OrderedPrefix(Listed(before), Listed(after));
  }

  /* ---- one run ---- */

  /** What a migration's SQL does to a schema (None when it raises), and the digest of its text. */
  datatype Env<!S> = Env(exec: (S, Sql) -> Option<S>, checksum: Sql -> Checksum)

  datatype Db<S> = Db(schema: S, records: map<Name, Checksum>)

  datatype Ending = Complete | Modified(version: Name) | StatementFailed(version: Name) | Interrupted

  datatype Ran<S> = Ran(db: Db<S>, ending: Ending)

  /** The run from file i on, when the connection lives for another budget statements. */
  function RunFrom<S>(e: Env<S>, files: seq<File>, i: nat, budget: nat, db: Db<S>): Ran<S>
    requires i <= |files|
    decreases |files| - i
  {
    if i == |files| then Ran(db, Complete)
    else if budget == 0 then Ran(db, Interrupted)
    else
      var f := files[i];
      if f.version in db.records then
        if db.records[f.version] != e.checksum(f.sql) then Ran(db, Modified(f.version))
        else RunFrom(e, files, i + 1, budget - 1, db)
      else if budget < 3 then Ran(db, Interrupted)
      else match e.exec(db.schema, f.sql)
        case None => Ran(db, StatementFailed(f.version))
        case Some(schema) =>
          if budget < 5 then Ran(db, Interrupted)
          else RunFrom(e, files, i + 1, budget - 5, Db(schema, db.records[f.version := e.checksum(f.sql)]))
  }

  /** The runner against its database. */
  class Runner<S(!new)> {
    const env: Env<S>
    var schema: S
    var records: map<Name, Checksum>

    constructor (e: Env<S>, s: S)
      ensures env == e && schema == s && records == map[]
    {
      env := e;
      schema := s;
      records := map[];
    }

    ghost function Contents(): Db<S> reads this { Db(schema, records) }

    method Migrate(files: seq<File>, budget: nat) returns (ending: Ending)
      modifies this
      ensures Ran(Contents(), ending) == RunFrom(env, files, 0, budget, old(Contents()))
    {
      var left := budget;
      ending := Complete;
      for i := 0 to |files|
        invariant RunFrom(env, files, i, left, Contents()) == RunFrom(env, files, 0, budget, old(Contents()))
        invariant ending == Complete
      {
        if left == 0 { return Interrupted; }
        left := left - 1;
        var version, checksum := files[i].version, env.checksum(files[i].sql);
        if version in records {
          if records[version] != checksum { return Modified(version); }
        } else {
          // BEGIN; the transaction's own view is discarded unless COMMIT is reached
          if left < 2 { return Interrupted; }
          left := left - 2;
          var changed := env.exec(schema, files[i].sql);
          if changed.None? { return StatementFailed(version); }
          if left == 0 { return Interrupted; }
          left := left - 1;
          var recorded := records[version := checksum];
          if left == 0 { return Interrupted; }
          left := left - 1;
          schema, records := changed.value, recorded;
        }
      }
    }
  }

  /* ---- what a prefix of the list leaves behind ---- */

  function Applied<S>(e: Env<S>, s0: S, files: seq<File>): Option<Db<S>>
    decreases |files|
  {
    if files == [] then Some(Db(s0, map[]))
    else
      var f := files[|files| - 1];
      match Applied(e, s0, files[..|files| - 1])
      case None => None
      case Some(db) =>
        match e.exec(db.schema, f.sql)
        case None => None
        case Some(schema) => Some(Db(schema, db.records[f.version := e.checksum(f.sql)]))
  }

  /** The database is what the first k files of the list leave behind. */
  ghost predicate Done<S(!new)>(e: Env<S>, s0: S, files: seq<File>, k: nat, db: Db<S>) {
    k <= |files| && Applied(e, s0, files[..k]) == Some(db)
  }

  ghost predicate Recorded<S(!new)>(e: Env<S>, db: Db<S>, f: File) {
    f.version in db.records && db.records[f.version] == e.checksum(f.sql)
  }

  /** One record for each applied file, and none for the others. */
  lemma {:induction false} RecordsOf<S(!new)>(e: Env<S>, s0: S, files: seq<File>, k: nat, db: Db<S>)
    requires DistinctNames(files) && Done(e, s0, files, k, db)
    ensures forall j :: 0 <= j < k ==> Recorded(e, db, files[j])
    ensures forall j :: k <= j < |files| ==> files[j].version !in db.records
    ensures |db.records| == k
    decreases k
  {
    if k > 0 {
      assert files[..k][..k - 1] == files[..k - 1];
      var before := Applied(e, s0, files[..k - 1]).value;
      RecordsOf(e, s0, files, k - 1, before);
      assert files[k - 1].version !in before.records;
      assert db.records == before.records[files[k - 1].version := e.checksum(files[k - 1].sql)];
      assert db.records.Keys == before.records.Keys + {files[k - 1].version};
    }
  }

  lemma DoneMore<S(!new)>(e: Env<S>, s0: S, files: seq<File>, k: nat, db: Db<S>)
    requires Done(e, s0, files, k, db) && k < |files| && e.exec(db.schema, files[k].sql).Some?
    ensures Done(e, s0, files, k + 1,
                 Db(e.exec(db.schema, files[k].sql).value, db.records[files[k].version := e.checksum(files[k].sql)]))
  {
    assert files[..k + 1][..k] == files[..k];
  }

  /** Any run, interrupted or not, takes a prefix of the list to a longer prefix. */
  lemma {:induction false} RunExtends<S(!new)>(
      e: Env<S>, s0: S, files: seq<File>, i: nat, k: nat, budget: nat, db: Db<S>) returns (n: nat)
    requires DistinctNames(files) && Done(e, s0, files, k, db) && i <= k
    ensures var r := RunFrom(e, files, i, budget, db);
            k <= n <= |files| && Done(e, s0, files, n, r.db)
            && (r.ending.Complete? ==> n == |files|)
            && (r.ending.StatementFailed? ==> n < |files| && r.ending.version == files[n].version
                                              && e.exec(r.db.schema, files[n].sql) == None)
            && !r.ending.Modified?
            && (r.ending.Interrupted? ==> budget < 5 * (|files| - i))
    decreases |files| - i
  {
    n := k;
    if i < |files| && budget > 0 {
      RecordsOf(e, s0, files, k, db);
      hide Applied, Done;
      if i < k {
        assert Recorded(e, db, files[i]);
        n := RunExtends(e, s0, files, i + 1, k, budget - 1, db);
      } else if budget >= 5 && e.exec(db.schema, files[i].sql).Some? {
        DoneMore(e, s0, files, k, db);
        n := RunExtends(e, s0, files, i + 1, k + 1, budget - 5,
          Db(e.exec(db.schema, files[k].sql).value, db.records[files[k].version := e.checksum(files[k].sql)]));
      }
    }
  }

  lemma {:induction false} AppliedShorter<S(!new)>(e: Env<S>, s0: S, files: seq<File>, k: nat, n: nat)
    requires k <= n <= |files| && Applied(e, s0, files[..n]).Some?
    ensures Applied(e, s0, files[..k]).Some?
    decreases n
  {
    if k < n {
      assert files[..n][..n - 1] == files[..n - 1];
      AppliedShorter(e, s0, files, k, n - 1);
    }
  }

  /** A file that raises after the first k is never among the applied. */
  lemma FailedStops<S(!new)>(e: Env<S>, s0: S, files: seq<File>, k: nat, db: Db<S>, n: nat, later: Db<S>)
    requires Done(e, s0, files, k, db) && k < |files| && e.exec(db.schema, files[k].sql) == None
    requires Done(e, s0, files, n, later)
    ensures n <= k
  {
    if k < n {
      assert files[..k + 1][..k] == files[..k];
      AppliedShorter(e, s0, files, k + 1, n);
    }
  }

  /** Enough statements for any list: an uninterrupted run. */
  function Enough(files: seq<File>): nat { 5 * |files| }

  /** An uninterrupted run ends the same way, in the same database, from every prefix of its list. */
  lemma SameEnd<S(!new)>(e: Env<S>, s0: S, files: seq<File>, k: nat, db: Db<S>, l: nat, db': Db<S>)
    requires DistinctNames(files) && Done(e, s0, files, k, db) && Done(e, s0, files, l, db')
    ensures RunFrom(e, files, 0, Enough(files), db) == RunFrom(e, files, 0, Enough(files), db')
  {
    var a, b := RunFrom(e, files, 0, Enough(files), db), RunFrom(e, files, 0, Enough(files), db');
    var m := RunExtends(e, s0, files, 0, k, Enough(files), db);
    var n := RunExtends(e, s0, files, 0, l, Enough(files), db');
    hide RunFrom, Applied;
    if a.ending.StatementFailed? { FailedStops(e, s0, files, m, a.db, n, b.db); }
    if b.ending.StatementFailed? { FailedStops(e, s0, files, n, b.db, m, a.db); }
  }

  /* ---- histories of runs ---- */

  datatype Attempt = Attempt(files: seq<File>, budget: nat)

  function AfterRuns<S>(e: Env<S>, s0: S, runs: seq<Attempt>): Db<S>
    decreases |runs|
  {
    if runs == [] then Db(s0, map[])
    else
      var last := runs[|runs| - 1];
      RunFrom(e, last.files, 0, last.budget, AfterRuns(e, s0, runs[..|runs| - 1])).db
  }

  /** The list may change between runs as long as the files already recorded keep their places and text. */
  predicate KeepsRecorded<S>(db: Db<S>, before: seq<File>, after: seq<File>) {
    var n := |db.records|;
    n <= |before| && n <= |after| && before[..n] == after[..n]
  }

  predicate History<S>(e: Env<S>, s0: S, runs: seq<Attempt>)
    decreases |runs|
  {
    runs == []
    || (var n := |runs| - 1;
        History(e, s0, runs[..n]) && DistinctNames(runs[n].files)
        && (n > 0 ==> KeepsRecorded(AfterRuns(e, s0, runs[..n]), runs[n - 1].files, runs[n].files)))
  }

  lemma EmptyIsDone<S(!new)>(e: Env<S>, s0: S, files: seq<File>)
    ensures Done(e, s0, files, 0, Db(s0, map[]))
  {
    assert files[..0] == [];
  }

  /** In every history the recorded versions are a prefix of the list. */
  lemma {:induction false} RecordsArePrefix<S(!new)>(e: Env<S>, s0: S, runs: seq<Attempt>)
    requires History(e, s0, runs) && runs != []
    ensures var db, files := AfterRuns(e, s0, runs), runs[|runs| - 1].files;
            DistinctNames(files) && Done(e, s0, files, |db.records|, db)
            && (forall j :: 0 <= j < |files| ==> (files[j].version in db.records <==> j < |db.records|))
    decreases |runs|
  {
    var n := |runs| - 1;
    var files, before := runs[n].files, AfterRuns(e, s0, runs[..n]);
    if n == 0 {
      EmptyIsDone(e, s0, files);
    } else {
      RecordsArePrefix(e, s0, runs[..n]);
      assert runs[..n][n - 1] == runs[n - 1];
      assert runs[n - 1].files[..|before.records|] == files[..|before.records|];
    }
    var k := RunExtends(e, s0, files, 0, |before.records|, runs[n].budget, before);
    RecordsOf(e, s0, files, k, AfterRuns(e, s0, runs));
    hide RunFrom, Applied;
    forall j | 0 <= j < |files|
      ensures files[j].version in AfterRuns(e, s0, runs).records <==> j < |AfterRuns(e, s0, runs).records|
    {
      if j < k { assert Recorded(e, AfterRuns(e, s0, runs), files[j]); }
    }
  }

  /** Any number of runs, each stopped anywhere, followed by one complete run: as one clean run. */
  lemma CrashesDoNotMatter<S(!new)>(e: Env<S>, s0: S, runs: seq<Attempt>, files: seq<File>)
    requires History(e, s0, runs + [Attempt(files, Enough(files))])
    ensures RunFrom(e, files, 0, Enough(files), AfterRuns(e, s0, runs))
            == RunFrom(e, files, 0, Enough(files), Db(s0, map[]))
  {
    var all := runs + [Attempt(files, Enough(files))];
    var db := AfterRuns(e, s0, runs);
    assert all[..|all| - 1] == runs;
    EmptyIsDone(e, s0, files);
    if runs != [] {
      RecordsArePrefix(e, s0, runs);
      assert runs[|runs| - 1].files[..|db.records|] == files[..|db.records|];
    }
    SameEnd(e, s0, files, |db.records|, db, 0, Db(s0, map[]));
  }

  /** Every listing in the sequence extends the one before it. */
  predicate Growing(runs: seq<Attempt>) {
    (forall i :: 0 <= i < |runs| ==> DistinctNames(runs[i].files))
    && forall i :: 0 < i < |runs| ==>
         |runs[i - 1].files| <= |runs[i].files| && runs[i].files[..|runs[i - 1].files|] == runs[i - 1].files
  }

  lemma GrowingKeeps<S(!new)>(e: Env<S>, db: Db<S>, s0: S, before: seq<File>, after: seq<File>)
    requires Done(e, s0, before, |db.records|, db)
    requires |before| <= |after| && after[..|before|] == before
    ensures KeepsRecorded(db, before, after)
  {
    assert after[..|db.records|] == after[..|before|][..|db.records|];
  }

  /** A list that only grows at its end keeps what is recorded. */
  lemma {:induction false} GrowingIsHistory<S(!new)>(e: Env<S>, s0: S, runs: seq<Attempt>)
    requires Growing(runs)
    ensures History(e, s0, runs)
    decreases |runs|
  {
    hide RunFrom, Applied, Done, KeepsRecorded;
    if runs != [] {
      var n := |runs| - 1;
      GrowingIsHistory(e, s0, runs[..n]);
      if n > 0 {
        RecordsArePrefix(e, s0, runs[..n]);
        GrowingKeeps(e, AfterRuns(e, s0, runs[..n]), s0, runs[n - 1].files, runs[n].files);
      }
    }
  }

  /* ---- modified files ---- */

  /** The first file from i on that is not recorded with its own checksum. */
  function FirstOther<S>(e: Env<S>, files: seq<File>, i: nat, db: Db<S>): (j: nat)
    requires i <= |files|
    ensures i <= j <= |files|
    decreases |files| - i
  {
    if i < |files| && files[i].version in db.records && db.records[files[i].version] == e.checksum(files[i].sql)
    then FirstOther(e, files, i + 1, db) else i
  }

  lemma {:induction false} RecordsGrow<S(!new)>(e: Env<S>, files: seq<File>, i: nat, budget: nat, db: Db<S>)
    requires i <= |files|
    ensures db.records.Keys <= RunFrom(e, files, i, budget, db).db.records.Keys
    decreases |files| - i
  {
    if i < |files| && budget > 0 {
      var f := files[i];
      if f.version in db.records {
        RecordsGrow(e, files, i + 1, budget - 1, db);
      } else if budget >= 5 && e.exec(db.schema, f.sql).Some? {
        RecordsGrow(e, files, i + 1, budget - 5,
          Db(e.exec(db.schema, f.sql).value, db.records[f.version := e.checksum(f.sql)]));
      }
    }
  }

  /**
   * An uninterrupted run applies nothing exactly when the first file that is not recorded as it
   * stands was modified, or raises, or does not exist; a modified one ends the run there.
   */
  lemma {:induction false} AppliesNothingIff<S(!new)>(e: Env<S>, files: seq<File>, i: nat, budget: nat, db: Db<S>)
    requires i <= |files| && budget >= 5 * (|files| - i)
    ensures var r, j := RunFrom(e, files, i, budget, db), FirstOther(e, files, i, db);
            (r.db == db <==> j == |files| || files[j].version in db.records || e.exec(db.schema, files[j].sql) == None)
            && (j < |files| && files[j].version in db.records ==> r == Ran(db, Modified(files[j].version)))
            && (j == |files| ==> r == Ran(db, Complete))
    decreases |files| - i
  {
    if i < |files| {
      var f := files[i];
      if f.version in db.records {
        if db.records[f.version] == e.checksum(f.sql) { AppliesNothingIff(e, files, i + 1, budget - 1, db); }
      } else if e.exec(db.schema, f.sql).Some? {
        RecordsGrow(e, files, i + 1, budget - 5,
          Db(e.exec(db.schema, f.sql).value, db.records[f.version := e.checksum(f.sql)]));
        assert f.version in RunFrom(e, files, i, budget, db).db.records;
      }
    }
  }

  /** A recorded file whose text changed, under names unchanged, makes every later run apply nothing. */
  lemma {:induction false} ModifiedAppliesNothing<S(!new)>(
      e: Env<S>, s0: S, was: seq<File>, k: nat, db: Db<S>, files: seq<File>, i: nat, c: nat, budget: nat)
    requires DistinctNames(was) && Done(e, s0, was, k, db) && k <= |files|
    requires forall j :: 0 <= j < k ==> files[j].version == was[j].version
    requires i <= c < k && e.checksum(files[c].sql) != e.checksum(was[c].sql)
    ensures RunFrom(e, files, i, budget, db).db == db
    ensures RunFrom(e, files, i, budget, db).ending.Modified? || RunFrom(e, files, i, budget, db).ending.Interrupted?
    ensures budget > c - i ==> RunFrom(e, files, i, budget, db).ending.Modified?
    decreases |files| - i
  {
    RecordsOf(e, s0, was, k, db);
    assert Recorded(e, db, was[i]);
    if budget > 0 && db.records[files[i].version] == e.checksum(files[i].sql) {
      ModifiedAppliesNothing(e, s0, was, k, db, files, i + 1, c, budget - 1);
    }
  }
}
